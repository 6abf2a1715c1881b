# newsign check-in orchestration, modelled in Dafny

newsign signs a student's accounts into the check-in activities ("signs") of
their courses on the Chaoxing learning platform. This project models the
decision logic at its core:

- **Activity classification** (`wrappers.dfy`, `activity.dfy`, module
  `Activities`). Each raw activity record of each course becomes a check-in
  when its `other_id` is an integer in 0..=5, and an other activity otherwise.
  The check-ins are split into a valid bucket and an invalid bucket, and the
  valid bucket is sorted. A failed request aborts the whole listing.
- **The QR-code signer** (`qrcode.dfy`, module `QrCodeSigner`). It builds the
  ordered list of candidate locations and resolves the QR code's `enc` token
  (explicit value, then picture file or directory, then screen capture). Then,
  account by account, it runs a pre-check and tries the candidate locations in
  order until one succeeds or the platform answers "already signed".
  `QrCodeSign` is a class whose `enc` and `location` fields the signer sets in
  place. The location last set stays on the sign for the next account.
- **The `sign` command** (`cli.dfy`, module `Cli`). It resolves `--pos` /
  `--location` into candidate positions and dispatches on the activity's
  `SignType`, including the cases that sign nobody. It finds the activity by
  id (active check-ins first) and applies the `--account` override. It merges
  the results of the concurrent per-account calls into a map keyed by account
  name.

Network requests, the database, the file system, QR decoding and screen
capture are function-typed fields of `Env` (`QrCodeSigner`) and `Store` / `Net`
(`Cli`), or function parameters (`Activities`). Each maps what the call is
given to what it returns. A panic of the source (`unwrap`, indexing a missing
key, `panic!`) is a precondition. A propagated error (`?`) is the `Err` case of
a `Result`.

Points where the code's behaviour is easy to misread, and how the model
captures it:

- The two front ends order the candidate locations differently. `qrcode.rs`
  builds the global locations, then the course's, then the activity's preset
  last (`Candidates`). The CLI builds the course's positions, then the global
  ones, with no preset (`Poss`).
- `qrcode.rs` handles the sessions one after another, and an error from
  `pre_sign` or `sign_unchecked` aborts the whole call with that error and no
  map (`SignRun`, `SignRunAbort`). In the CLI the calls are concurrent, but the
  first error in completion order ends the merge (`Merge`, `GatherOutcome`).
- The valid bucket is sorted with `Sign`'s `Ord`, which is not part of this
  model. The model takes that order as a total preorder `before` and proves
  sortedness and permutation.

## Model

| member | source | states |
|---|---|---|
| `Activities.ParseI64` | crates/activity/src/lib.rs:48-52 | a value `parse::<i64>` returns fits in 64 signed bits, comes from non-empty text, and is negative only for text starting with `-` |
| `Activities.ParseI64Accepts` | crates/activity/src/lib.rs:48-52 | an optional `+` or `-` followed by at least one digit parses to its signed value when that fits in 64 signed bits, and is refused otherwise; leading zeros and `+` are accepted |
| `Activities.ParseI64Shape` | crates/activity/src/lib.rs:48-52 | whatever parses is a digit string, or a sign followed by a non-empty digit string, and its value is that of the digits, negated after `-` |
| `Activities.IdRoundTrip` | crates/activity/src/lib.rs:54 | the decimal text an activity id is written as parses back to the same id |
| `Activities.IntToStringDigits` | crates/activity/src/lib.rs:54 | `to_string` of an id is a minus sign exactly for negative ids, then the decimal digits of its magnitude without leading zeros |
| `Activities.ToActivity` | crates/activity/src/lib.rs:47-74 | a record is a check-in iff `other_id` is present and parses into 0..=5; it fails iff it is a check-in whose detail request fails, with that error; id is the id's text, name `name_one`, course the enclosing course, start time `start_time / 1000` (within i64); a check-in carries `other_id`, the status and the detail its request returned; an other activity keeps the record's status |
| `Activities.ConvertRecord` | crates/activity/src/lib.rs:48-73 | the body of the record loop, detail request and early return included, computes exactly `ToActivity` |
| `Activities.Collect` | crates/activity/src/lib.rs:47-75 | a page that succeeds yields one activity per record |
| `Activities.CollectPointwise` | crates/activity/src/lib.rs:47-75 | a page succeeds iff every record does, and then record k becomes activity k |
| `Activities.CollectOk` | crates/activity/src/lib.rs:55 | a page succeeds iff no record's detail request fails |
| `Activities.CollectValues` | crates/activity/src/lib.rs:65-73 | the activities of a successful page are its records' conversions, in order |
| `Activities.CollectFirstError` | crates/activity/src/lib.rs:55 | a failed page returns the error of its first failing record, all earlier records having succeeded |
| `Activities.CollectAbort` | crates/activity/src/lib.rs:55 | once a prefix of the page fails, the page fails with that error |
| `Activities.CourseActivities` | crates/activity/src/lib.rs:42-78 | a failed page request is the course's error; a page without `data` yields no activities; a page with `data` is its records collected in order (`Collect`) |
| `Activities.GetListFromCourse` | crates/activity/src/lib.rs:42-78 | the loop pushing one activity per record computes exactly the course's activity list or its first error |
| `Activities.ValidSigns` | crates/activity/src/lib.rs:28-30 | every check-in in the valid bucket is valid |
| `Activities.InvalidSigns` | crates/activity/src/lib.rs:31-33 | every check-in in the invalid bucket is not valid |
| `Activities.Others` | crates/activity/src/lib.rs:34-35 | the other-activity bucket holds at most as many entries as there are activities |
| `Activities.BucketsPartition` | crates/activity/src/lib.rs:25-37 | the three buckets' sizes add up to the number of activities and, as multisets, the buckets together are exactly the activities |
| `Activities.BucketsStep` | crates/activity/src/lib.rs:27-36 | one more activity enters exactly one bucket |
| `Activities.BucketsSnoc` | crates/activity/src/lib.rs:27-36 | unfolding of the three bucket filters at `front + [a]`: the activity is appended to its own bucket and the others are those of `front` |
| `Activities.OneBucket` | crates/activity/src/lib.rs:28-35 | unfolding of the three bucket filters at `[a]`: the activity's own bucket is `[a]`, the others are empty |
| `Activities.PushOne` | crates/activity/src/lib.rs:28-36 | one activity is pushed onto its own bucket: the three buckets become the three filters at `front + [a]` |
| `Activities.PushActivities` | crates/activity/src/lib.rs:27-37 | pushing one course's activities extends each bucket in encounter order |
| `Activities.InsertSorted` | crates/activity/src/lib.rs:39 | inserting into a sorted list keeps it sorted and adds exactly that element |
| `Activities.InsertedPair` | crates/activity/src/lib.rs:39 | any two positions of the list with the element inserted are in order |
| `Activities.SortSigns` | crates/activity/src/lib.rs:39 | the sorted valid bucket is ordered and a permutation of its input |
| `Activities.GetAllActivities` | crates/activity/src/lib.rs:18-41 | an error fetching the courses, a page or a detail aborts with that error and no partial result; otherwise the valid bucket is the valid check-ins sorted (as a permutation), the invalid and other buckets keep encounter order, courses first then records |
| `Activities.AllActivities` | crates/activity/src/lib.rs:24-27 | a failed listing carries the error of one of its courses |
| `Activities.AllActivitiesOk` | crates/activity/src/lib.rs:24-27 | the listing succeeds exactly when every course's activity list does |
| `Activities.AllActivitiesFirstError` | crates/activity/src/lib.rs:24-27 | a failed listing carries the error of its first failing course, every earlier course having been listed |
| `Activities.AllActivitiesAbort` | crates/activity/src/lib.rs:24-26 | once a prefix of the courses fails, the whole listing fails with that error |
| `QrCodeSigner.QrCodeSign.constructor` | crates/cxsign_app/src/signner/default/qrcode.rs:114-117 | a sign carries its activity and whether it is a `RefreshQrCodeSign` or a `NormalQrCodeSign` |
| `QrCodeSigner.QrCodeSign.SetEnc` | crates/cxsign_app/src/signner/default/qrcode.rs:124 | `set_enc` stores the token on the sign |
| `QrCodeSigner.QrCodeSign.SetLocation` | crates/cxsign_app/src/signner/default/qrcode.rs:134 | `set_location` stores the location on the sign |
| `QrCodeSigner.PresetFor` | crates/cxsign_app/src/signner/default/qrcode.rs:52-64 | there is a preset iff there is a first session whose log reads and lists this activity; only the first session's log is read (the map read from it is `PresetMap`, empty without sessions); it is unshifted exactly when `no_rand_shift` |
| `QrCodeSigner.Candidates` | crates/cxsign_app/src/signner/default/qrcode.rs:46-87 | a resolved location string is the only candidate; the only error is the first session's log failing; an empty fallback gives global locations, then the course's, then the preset last; a named fallback gives that name at the preset's coordinates, or nothing without a preset |
| `QrCodeSigner.PresetFromFirstSessionOnly` | crates/cxsign_app/src/signner/default/qrcode.rs:53-57 | session lists with the same first session give the same candidates |
| `QrCodeSigner.CollectCandidates` | crates/cxsign_app/src/signner/default/qrcode.rs:46-87 | the candidate list built with `append` and `push` is exactly `Candidates` |
| `QrCodeSigner.ResolveEnc` | crates/cxsign_app/src/signner/default/qrcode.rs:88-123 | an explicit token wins; else a file's QR token or "no `enc` in QR code"; else a directory's chosen picture's token, its choice's error, or "no picture"; else a screen capture, live iff the QR code refreshes, or "no `enc` on screen" |
| `QrCodeSigner.ObtainEnc` | crates/cxsign_app/src/signner/default/qrcode.rs:88-123 | the token is obtained exactly as `ResolveEnc` states |
| `QrCodeSigner.TryLocations` | crates/cxsign_app/src/signner/default/qrcode.rs:129-155 | trying candidates ends in a success, "all locations unavailable" or an error; with no candidates it is "all locations unavailable" and the sign's location is untouched; otherwise the location left is one of the candidates |
| `QrCodeSigner.TryLocationsStopsAtFirst` | crates/cxsign_app/src/signner/default/qrcode.rs:133-153 | the trial ends at the first candidate whose attempt errs, succeeds or answers "already signed", which is left on the sign; an error there is the result, anything else a success |
| `QrCodeSigner.TryLocationsExhausted` | crates/cxsign_app/src/signner/default/qrcode.rs:130-155 | when no attempt ends the trial, the result is "all locations unavailable" with the last candidate left on the sign |
| `QrCodeSigner.LaterCandidatesUnused` | crates/cxsign_app/src/signner/default/qrcode.rs:136-143 | candidates after the one that ended the trial are never reached: adding more changes neither a success nor an error |
| `QrCodeSigner.SessionState` | crates/cxsign_app/src/signner/default/qrcode.rs:127-156 | a successful pre-check is the session's success, with no candidate set; a failed pre-check request is the error; a failed pre-check hands over to the trial of the candidates (`TryLocations`); results are a success or "all locations unavailable" |
| `QrCodeSigner.SignSessions` | crates/cxsign_app/src/signner/default/qrcode.rs:125-159 | a successful run holds one entry per session, each a success or "all locations unavailable" |
| `QrCodeSigner.SignSessionsAppend` | crates/cxsign_app/src/signner/default/qrcode.rs:125-159 | running a list of sessions is running its front and then, unless the front failed, its back from the front's map and the location the front left on the sign |
| `QrCodeSigner.SignSessionsKeep` | crates/cxsign_app/src/signner/default/qrcode.rs:157 | a session that is not run again keeps the entry `map.insert` gave it |
| `QrCodeSigner.SignSessionsAbort` | crates/cxsign_app/src/signner/default/qrcode.rs:127-135 | when every earlier session succeeds and the k-th session's pre-check or trial errs, at the location the earlier sessions left, the run fails with that error and later sessions are not run |
| `QrCodeSigner.SignSessionsPointwise` | crates/cxsign_app/src/signner/default/qrcode.rs:125-158 | in a successful run, a session not repeated later is mapped to the result of its own pre-check and trial, run at the location the earlier sessions left |
| `QrCodeSigner.TwoAccountsThreeCandidates` | crates/cxsign_app/src/signner/default/qrcode.rs:125-159 | with three candidates where only the third works for the first account and none for the second, the map is {first: success, second: "all locations unavailable"} |
| `QrCodeSigner.SignRun` | crates/cxsign_app/src/signner/default/qrcode.rs:41-161 | a successful call maps exactly the sessions, each to a success or "all locations unavailable"; a failure building candidates or resolving the token leaves the sign untouched |
| `QrCodeSigner.SignRunAbort` | crates/cxsign_app/src/signner/default/qrcode.rs:124-159 | once candidates and token are obtained, a session that errs after the earlier ones succeeded makes the whole call fail with its error; the sign keeps the token and the location that session left |
| `QrCodeSigner.SignRunPointwise` | crates/cxsign_app/src/signner/default/qrcode.rs:41-161 | in a successful call, a session not repeated later is mapped to its own pre-check and trial's result with the resolved token and candidates, at the location the earlier sessions left |
| `QrCodeSigner.SignOneSession` | crates/cxsign_app/src/signner/default/qrcode.rs:127-157 | one session's pre-check and candidate loop, with its `break`s, compute exactly `SessionState` and leave its location on the sign |
| `QrCodeSigner.Sign` | crates/cxsign_app/src/signner/default/qrcode.rs:41-161 | `DefaultQrCodeSignner::sign` returns, and leaves on the sign, exactly what `SignRun` states |
| `Cli.Poss` | src/cli/mod.rs:104-121 | `--pos` is the only position whatever `--location` is; else `--location`'s saved position is; else the course's positions followed by the global ones |
| `Cli.SignPlan` | src/cli/mod.rs:131-210 | the activity signs nobody exactly for an unknown type, a gesture or sign-code check-in without a code, a photo without a path or with unreadable metadata, or a QR code without a path or whose directory holds no picture; common always runs the general sign, location always runs with the resolved positions, and the type decides the kind of job; the reason for signing nobody is `InvalidType` for an unknown type, `NoSignCode` for a gesture or sign-code check-in without a code, `NoPhotoPath` / `NoPhotoMetadata` for a photo without a path or with unreadable metadata, and `NoQrCodePath` / `NoPictureInDir` for a QR code without a path or with an empty picture directory |
| `Cli.TaskOf` | src/cli/mod.rs:37-41 | a photo job uploads its picture, or the default photo, with the first session; the other jobs carry their code, token and positions over to their tasks unchanged |
| `Cli.Merge` | src/cli/mod.rs:24-28 | the merge succeeds iff every completed call does, and then has one key per reported name |
| `Cli.MergeFirstError` | src/cli/mod.rs:25 | a failed merge returns the error of the first failed call in completion order |
| `Cli.MergePrefixAbort` | src/cli/mod.rs:24-27 | once a prefix of the calls fails, the whole merge fails with that error |
| `Cli.MergeAgree` | src/cli/mod.rs:26 | a name whose calls all succeeded with one state is mapped to that state |
| `Cli.GatherOutcome` | src/cli/mod.rs:15-29 | in any completion order: success iff every session's call succeeds; then one key per session name, and a name used by one session maps to its state; a failure is some session's error |
| `Cli.CompletionOrderIrrelevant` | src/cli/mod.rs:20-28 | with distinct session names, the completion order changes neither success nor the merged map |
| `Cli.Gather` | src/cli/mod.rs:15-29 | a `*_sign_` helper's insert loop computes exactly the merge of the calls in completion order |
| `Cli.AccountStates` | src/cli/mod.rs:122-222 | an activity signed for nobody reports nothing; otherwise it succeeds iff every session's call does, with one entry per session name, and a failure is some session's error |
| `Cli.SkipIgnoresNet` | src/cli/mod.rs:135-209 | consequence of `AccountStates`' first clause: an activity signed for nobody gives the same (empty) result whatever the network does |
| `Cli.HandleAccountSign` | src/cli/mod.rs:122-222 | `handle_account_sign` computes exactly `AccountStates` |
| `Cli.Find` | src/cli/mod.rs:237-238 | the entry found is the first, in iteration order, with that id; none iff no entry has it |
| `Cli.Lookup` | src/cli/mod.rs:236-247 | the active check-ins are searched before the others; the activity found has the requested id |
| `Cli.Override` | src/cli/mod.rs:249-252 | `--account` replaces the sessions by exactly that account's session; otherwise they are kept |
| `Cli.OverrideAll` | src/cli/mod.rs:255-260 | the override is applied to every active check-in |
| `Cli.Targets` | src/cli/mod.rs:236-262 | with an id, exactly the activity found; without, every active check-in in order and none of the others; with `--account`, each for that account only |
| `Cli.RunAll` | src/cli/mod.rs:236-264 | a successful command reports at most one non-empty result map per activity |
| `Cli.AddReport` | src/cli/mod.rs:211-220 | earlier reports stay; a report is added exactly when the activity has states, and it is that activity's; every report stays non-empty |
| `Cli.RunAllOkEach` | src/cli/mod.rs:253-261 | the command succeeds exactly when every activity it handles does |
| `Cli.RunAllAbort` | src/cli/mod.rs:261 | once an activity fails, the command fails with that error |
| `Cli.RunAllStep` | src/cli/mod.rs:255-262 | unfolding of `RunAll` at `targets[..i+1]`: the prefix's error, else the activity's error, else its report added |
| `Cli.RunAllOne` | src/cli/mod.rs:253 | unfolding of `RunAll` at `[t]`: the activity's error, or its report added to none |
| `Cli.SignActive` | src/cli/mod.rs:255-262 | the loop over the active check-ins computes exactly `RunAll` of the overridden entries |
| `Cli.Sign` | src/cli/mod.rs:224-265 | `sign` computes exactly `RunAll` of its targets |

## Left out

- Network requests, the SQLite database, the file system, QR decoding, screen capture and photo upload are not modelled. They are oracles: function-typed fields or parameters mapping their inputs to their results.
- `src/cli/mod.rs` prints its results and messages; the model returns the reports (`Cli.Report`) and the reason an activity is skipped (`Cli.Refusal`) instead. `warn!` logging in `qrcode.rs` is left out.
- Concurrency in `src/cli/mod.rs` is modelled as an arbitrary completion order of the per-session calls (`Net.completion`). Interleaving inside the calls is not modelled.
- `HashMap` iteration order of `asigns` and `osigns` is modelled as a given sequence.
- `Sign::is_valid`, `Sign`'s `Ord`, `get_sign_type`, `get_c_of_qrcode_sign`, `Address::parse_str` and `to_shifted_location` are not part of this model. They are parameters, fields or oracles (`isValid`, `before`, `SignActivity.signType`, `SignActivity.qrC`, `Store.parseAddress`, `Env.toShiftedLocation`).
- The single-session calls (`single_sign.rs`, `sign_unchecked`, `pre_sign`) are not part of this model. The name a CLI call reports is taken to be the session's `name`.
- `RawSign::to_sign()` (`crates/activity/src/lib.rs:65`) is not part of this model. The check-in buckets hold the `RawSign` records, and `isValid` and `before` stand for `is_valid` and `Ord` applied after `to_sign`.
- Activities.SortSigns: stability of `sort` is not stated, because `before` is only a total preorder.
- Activities.GetListFromCourse: requires every present `other_id` of the page to parse as an i64. The source panics only on reaching such a record, so it returns an earlier detail error before a later unparsable `other_id`.
- Activities.GetAllActivities: requires every course's page to satisfy that condition, for the same reason.
- `into_json().unwrap()` on the activity page and `to_str().unwrap()` on picture paths are not modelled: pages arrive decoded, and paths are strings.
- QrCodeSigner.Sign: requires the picture path's metadata to be readable whenever no explicit token is given (`std::fs::metadata(pic).unwrap()`). The source reaches that `unwrap` only after the candidates are built, so it returns a failed log read (`qrcode.rs:55`) before the panic at `qrcode.rs:91`; the model requires readable metadata in that case too.
- Cli.Sign: requires the `--account` name to exist (`sessions[account]`) and the activity id to be found. It also requires readable metadata for a QR code's path and a non-empty session list for a photo check-in with readable metadata (`sessions[0]`).
- Cli.Sign: requires those conditions (`AllRunnable`) of every activity it would handle. The source returns an earlier activity's error before it reaches a later activity's `metadata(...).unwrap()` or `sessions[0]`, so the model excludes inputs on which the source returns that error instead of panicking.
- Cli.Sign: requires the `--account` name to exist even when there are no active check-ins, where the source never evaluates `sessions[account]` (`src/cli/mod.rs:258`).
- Cli.SignActive: carries the same two preconditions as `Cli.Sign`, for the same reasons.
- `db.get_pos` and `get_course_poss_without_posid` are total oracles; a failing database lookup is not modelled.
- The `unreachable!()` of the sign-code arm cannot be reached: the seven `SignType` cases are matched one by one.
