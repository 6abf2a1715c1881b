/** The `sign` command of the command-line front end: it picks the activities
    to sign (one by id, or every active check-in), applies the account
    override, decides per activity what kind of check-in to run from its
    `SignType` and the options given, and merges the per-session results of
    the concurrent single-session calls into a map keyed by the session's name.

    The database, the file system, photo upload and the single-session
    requests are function-typed fields of `Store` and `Net`. The order in which
    the concurrent single-session calls complete is `Net.completion`: any
    ordering of the sessions. The messages the command prints are left out;
    what it would report is returned instead. */
module Cli {
  import opened Wrappers
  import Activities

  /** `reqwest::Error`. */
  datatype Error = Transport(reason: string)

  datatype SignState = Success | Fail(msg: string)

  datatype SignType = Photo | Common | QrCode | Gesture | Location | SignCode | Unknown

  datatype Address = Address(addr: string, lon: string, lat: string, alt: string)

  /** A logged-in account; `name` is what its results are keyed by. */
  datatype Session = Session(uid: string, name: string)

  /** A check-in activity with its type and the `c` parameter of a QR-code check-in. */
  datatype SignActivity = SignActivity(id: string, name: string, courseId: int, signType: SignType, qrC: string)

  /** An uploaded photo. */
  datatype UploadedPhoto = UploadedPhoto(objectId: string)

  /** An activity with the sessions to sign it for (an entry of `asigns` or `osigns`). */
  datatype Target = Target(sign: SignActivity, sessions: seq<Session>)

  datatype Store = Store(
    // `Address::parse_str`
    parseAddress: string -> Address,
    // `db.get_pos(id).1`
    pos: int -> Address,
    // `db.get_course_poss_without_posid(course)`; course -1 holds the global positions
    coursePoss: int -> seq<Address>,
    // `std::fs::metadata(path)`: None when it fails, else whether the path is a directory
    isDir: string -> Option<bool>,
    // `picdir_to_pic(dir)`
    picdirToPic: string -> Option<string>,
    // `handle_qrcode_pic_path(path)`: the `enc` of the QR code in a picture
    qrEnc: string -> string)

  /** What each single-session call is given besides the activity and the session. */
  datatype Task =
    | GeneralTask
    | PhotoTask(photo: UploadedPhoto)
    | QrCodeTask(c: string, enc: string, poss: seq<Address>)
    | LocationTask(poss: seq<Address>)
    | SignCodeTask(code: string)

  datatype Net = Net(
    // `Photo::from_file(session, path)` and `Photo::default(session)`
    photoFromFile: (Session, string) -> UploadedPhoto,
    photoDefault: Session -> UploadedPhoto,
    // `general_sign_single`, `photo_sign_single`, `qrcode_sign_single`, ... by task
    single: (SignActivity, Task, Session) -> Result<SignState, Error>,
    // the order, as indices into the session list, in which the calls complete
    completion: (SignActivity, seq<Session>) -> seq<nat>)

  // ---------------------------------------------------------------------------
  // Candidate positions (mod.rs:104-121)
  // ---------------------------------------------------------------------------

  /** `location_and_pos_to_poss`. */
  function Poss(store: Store, sign: SignActivity, location: Option<int>, pos: Option<string>): (r: seq<Address>)
    // `--pos` wins over `--location`
    ensures pos.Some? ==> r == [store.parseAddress(pos.value)]
    ensures pos.None? && location.Some? ==> r == [store.pos(location.value)]
    // neither: the course's positions, then the global ones
    ensures pos.None? && location.None? ==>
      var course, global := store.coursePoss(sign.courseId), store.coursePoss(-1);
      |r| == |course| + |global| && r[..|course|] == course && r[|course|..] == global
  {
    if pos.Some? then [store.parseAddress(pos.value)]
    else if location.Some? then [store.pos(location.value)]
    else store.coursePoss(sign.courseId) + store.coursePoss(-1)
  }

  // ---------------------------------------------------------------------------
  // Dispatch on the sign type (mod.rs:131-210)
  // ---------------------------------------------------------------------------

  /** Why an activity is signed for nobody. */
  datatype Refusal =
    | InvalidType
    | NoSignCode(kind: SignType)
    | NoPhotoPath
    | NoPhotoMetadata
    | NoQrCodePath
    | NoPictureInDir

  /** What is run for an activity; the photo is uploaded only once the job runs. */
  datatype Job =
    | GeneralJob
    | PhotoJob(pic: Option<string>)
    | QrCodeJob(c: string, enc: string, poss: seq<Address>)
    | LocationJob(poss: seq<Address>)
    | SignCodeJob(code: string)

  datatype Plan = Skip(why: Refusal) | Run(job: Job)

  /** The cases in which the command signs nobody for the activity. */
  predicate SignsNobody(store: Store, sign: SignActivity, pic: Option<string>, signcode: Option<string>) {
    || sign.signType == Unknown
    || ((sign.signType == Gesture || sign.signType == SignCode) && signcode.None?)
    || (sign.signType == Photo && (pic.None? || store.isDir(pic.value).None?))
    || (sign.signType == QrCode && (pic.None? || (store.isDir(pic.value) == Some(true) && store.picdirToPic(pic.value).None?)))
  }

  /** The `match sign_type` of `handle_account_sign`. */
  function SignPlan(
    store: Store, sign: SignActivity, pic: Option<string>, location: Option<int>, pos: Option<string>,
    signcode: Option<string>): (p: Plan)
    requires sign.signType == QrCode && pic.Some? ==> store.isDir(pic.value).Some?
    ensures p.Skip? <==> SignsNobody(store, sign, pic, signcode)
    // a common check-in always runs the general sign
    ensures sign.signType == Common ==> p == Run(GeneralJob)
    // a location check-in always runs with the resolved positions
    ensures sign.signType == Location ==> p == Run(LocationJob(Poss(store, sign, location, pos)))
    ensures (sign.signType == Gesture || sign.signType == SignCode) && signcode.Some? ==>
      p == Run(SignCodeJob(signcode.value))
    // a photo: the chosen picture of a directory (possibly none), or the file itself
    ensures p.Run? && sign.signType == Photo ==>
      p.job == PhotoJob(if store.isDir(pic.value).value then store.picdirToPic(pic.value) else pic)
    // a QR code: the token of the picture, with the resolved positions
    ensures p.Run? && sign.signType == QrCode ==>
      var file := if store.isDir(pic.value).value then store.picdirToPic(pic.value).value else pic.value;
      p.job == QrCodeJob(sign.qrC, store.qrEnc(file), Poss(store, sign, location, pos))
    // the type tells which kind of job runs
    ensures p.Run? ==>
      && (p.job.GeneralJob? <==> sign.signType == Common)
      && (p.job.PhotoJob? <==> sign.signType == Photo)
      && (p.job.QrCodeJob? <==> sign.signType == QrCode)
      && (p.job.LocationJob? <==> sign.signType == Location)
      && (p.job.SignCodeJob? <==> sign.signType == Gesture || sign.signType == SignCode)
    // why nobody signs, case by case
    ensures sign.signType == Unknown ==> p == Skip(InvalidType)
    ensures (sign.signType == Gesture || sign.signType == SignCode) && signcode.None? ==> p == Skip(NoSignCode(sign.signType))
    ensures sign.signType == Photo && pic.None? ==> p == Skip(NoPhotoPath)
    ensures sign.signType == Photo && pic.Some? && store.isDir(pic.value).None? ==> p == Skip(NoPhotoMetadata)
    ensures sign.signType == QrCode && pic.None? ==> p == Skip(NoQrCodePath)
    ensures sign.signType == QrCode && pic.Some? && store.isDir(pic.value) == Some(true) && store.picdirToPic(pic.value).None? ==>
      p == Skip(NoPictureInDir)
  {
    match sign.signType
    case Photo =>
      if pic.None? then Skip(NoPhotoPath)
      else if store.isDir(pic.value).None? then Skip(NoPhotoMetadata)
      else Run(PhotoJob(if store.isDir(pic.value).value then store.picdirToPic(pic.value) else pic))
    case Common => Run(GeneralJob)
    case QrCode =>
      var poss := Poss(store, sign, location, pos);
      if pic.None? then Skip(NoQrCodePath)
      else if store.isDir(pic.value).value then
        match store.picdirToPic(pic.value)
        case Some(file) => Run(QrCodeJob(sign.qrC, store.qrEnc(file), poss))
        case None => Skip(NoPictureInDir)
      else Run(QrCodeJob(sign.qrC, store.qrEnc(pic.value), poss))
    case Location => Run(LocationJob(Poss(store, sign, location, pos)))
    case Unknown => Skip(InvalidType)
    case Gesture => if signcode.Some? then Run(SignCodeJob(signcode.value)) else Skip(NoSignCode(Gesture))
    case SignCode => if signcode.Some? then Run(SignCodeJob(signcode.value)) else Skip(NoSignCode(SignCode))
  }

  /** What `handle_account_sign` needs not to panic: readable metadata of a QR
      code's path, and a first session to upload a photo with. */
  predicate NoPanic(store: Store, sign: SignActivity, pic: Option<string>, sessions: seq<Session>) {
    && (sign.signType == QrCode && pic.Some? ==> store.isDir(pic.value).Some?)
    && (sign.signType == Photo && pic.Some? && store.isDir(pic.value).Some? ==> sessions != [])
  }

  /** The task of a job; a photo is uploaded with the first session. */
  function TaskOf(net: Net, job: Job, sessions: seq<Session>): (t: Task)
    requires job.PhotoJob? ==> sessions != []
    ensures job.PhotoJob? ==> t.PhotoTask?
    ensures job.PhotoJob? && job.pic.Some? ==> t.photo == net.photoFromFile(sessions[0], job.pic.value)
    ensures job.PhotoJob? && job.pic.None? ==> t.photo == net.photoDefault(sessions[0])
    // the other jobs carry their parameters over unchanged
    ensures job.GeneralJob? ==> t == GeneralTask
    ensures job.QrCodeJob? ==> t == QrCodeTask(job.c, job.enc, job.poss)
    ensures job.LocationJob? ==> t == LocationTask(job.poss)
    ensures job.SignCodeJob? ==> t == SignCodeTask(job.code)
  {
    match job
    case GeneralJob => GeneralTask
    case PhotoJob(pic) =>
      PhotoTask(if pic.Some? then net.photoFromFile(sessions[0], pic.value) else net.photoDefault(sessions[0]))
    case QrCodeJob(c, enc, poss) => QrCodeTask(c, enc, poss)
    case LocationJob(poss) => LocationTask(poss)
    case SignCodeJob(code) => SignCodeTask(code)
  }

  // ---------------------------------------------------------------------------
  // The fan-in merge of the `*_sign_` helpers (mod.rs:15-103)
  // ---------------------------------------------------------------------------

  /** A completed single-session call: the name it reports and its result. */
  datatype Done = Done(name: string, result: Result<SignState, Error>)

  /** An order in which `n` calls can complete: every index below `n`, `n` entries. */
  predicate IsOrder(order: seq<nat>, n: nat) {
    && |order| == n
    && (forall i :: 0 <= i < |order| ==> order[i] < n)
    && (forall j :: 0 <= j < n ==> j in order)
  }

  /** The calls in completion order. */
  function Completed(net: Net, sign: SignActivity, task: Task, sessions: seq<Session>, order: seq<nat>): (done: seq<Done>)
    requires forall i :: 0 <= i < |order| ==> order[i] < |sessions|
    ensures |done| == |order|
    ensures forall i :: 0 <= i < |order| ==>
      done[i] == Done(sessions[order[i]].name, net.single(sign, task, sessions[order[i]]))
  {
    seq(|order|, i requires 0 <= i < |order| => Done(sessions[order[i]].name, net.single(sign, task, sessions[order[i]])))
  }

  /** The `while let Some(tmp) = tasks.next()` loop: each result inserted under
      its name, the first error returned. */
  function Merge(done: seq<Done>): (r: Result<map<string, SignState>, Error>)
    ensures r.Ok? <==> forall i :: 0 <= i < |done| ==> done[i].result.Ok?
    ensures r.Ok? ==> r.value.Keys == set i | 0 <= i < |done| :: done[i].name
    decreases |done|
  {
    if done == [] then Ok(map[])
    else
      match Merge(done[..|done| - 1])
      case Err(e) => Err(e)
      case Ok(states) =>
        var last := done[|done| - 1];
        match last.result
        case Err(e) => Err(e)
        case Ok(state) =>
          assert forall i :: 0 <= i < |done| - 1 ==> done[..|done| - 1][i] == done[i];
          Ok(states[last.name := state])
  }

  /** The error of a failed merge is that of the first call, in completion
      order, that failed. */
  lemma {:induction false} MergeFirstError(done: seq<Done>)
    requires Merge(done).Err?
    ensures exists k ::
      && 0 <= k < |done|
      && done[k].result == Err(Merge(done).error)
      && forall j :: 0 <= j < k ==> done[j].result.Ok?
    decreases |done|
  {
    var front := done[..|done| - 1];
    assert forall i :: 0 <= i < |front| ==> front[i] == done[i];
    if Merge(front).Err? {
      MergeFirstError(front);
      var k :| 0 <= k < |front| && front[k].result == Err(Merge(front).error) && forall j :: 0 <= j < k ==> front[j].result.Ok?;
      assert done[k] == front[k];
    } else {
      assert done[|done| - 1].result == Err(Merge(done).error);
    }
  }

  /** Once a prefix of the calls fails, the whole merge fails the same way. */
  lemma {:induction false} MergePrefixAbort(done: seq<Done>, k: nat)
    requires k <= |done| && Merge(done[..k]).Err?
    ensures Merge(done) == Merge(done[..k])
    decreases |done| - k
  {
    if k < |done| {
      assert done[..k + 1][..k] == done[..k];
      MergePrefixAbort(done, k + 1);
    } else {
      assert done[..k] == done;
    }
  }

  /** A name all of whose calls succeeded with the same state is mapped to that state. */
  lemma {:induction false} MergeAgree(done: seq<Done>, name: string, state: SignState)
    requires Merge(done).Ok?
    requires exists i :: 0 <= i < |done| && done[i].name == name
    requires forall i :: 0 <= i < |done| && done[i].name == name ==> done[i].result == Ok(state)
    ensures Merge(done).value[name] == state
    decreases |done|
  {
    var front := done[..|done| - 1];
    assert forall i :: 0 <= i < |front| ==> front[i] == done[i];
    if done[|done| - 1].name != name {
      var i :| 0 <= i < |done| && done[i].name == name;
      assert front[i].name == name;
      MergeAgree(front, name, state);
    }
  }

  /** Each name occurs once among the sessions. */
  predicate UniqueName(sessions: seq<Session>, j: nat)
    requires j < |sessions|
  {
    forall k :: 0 <= k < |sessions| && sessions[k].name == sessions[j].name ==> k == j
  }

  /** The merge in any completion order: it succeeds exactly when every call
      does, then holds one entry per session name, and a name used by one
      session only holds that session's state; a failure is one of the
      sessions' errors. */
  lemma GatherOutcome(net: Net, sign: SignActivity, task: Task, sessions: seq<Session>, order: seq<nat>)
    requires IsOrder(order, |sessions|)
    ensures var r := Merge(Completed(net, sign, task, sessions, order));
      && (r.Ok? <==> forall j :: 0 <= j < |sessions| ==> net.single(sign, task, sessions[j]).Ok?)
      && (r.Ok? ==> r.value.Keys == set j | 0 <= j < |sessions| :: sessions[j].name)
      && (r.Ok? ==> forall j :: 0 <= j < |sessions| && UniqueName(sessions, j) ==>
            sessions[j].name in r.value && r.value[sessions[j].name] == net.single(sign, task, sessions[j]).value)
      && (r.Err? ==> exists j :: 0 <= j < |sessions| && net.single(sign, task, sessions[j]) == Err(r.error))
  {
    var done := Completed(net, sign, task, sessions, order);
    var r := Merge(done);
    if r.Ok? {
      forall j | 0 <= j < |sessions|
        ensures net.single(sign, task, sessions[j]).Ok?
      {
        assert j in order;
        var i :| 0 <= i < |order| && order[i] == j;
        assert done[i].result.Ok?;
      }
      var names := set j | 0 <= j < |sessions| :: sessions[j].name;
      forall n | n in names ensures n in r.value.Keys {
        var j :| 0 <= j < |sessions| && sessions[j].name == n;
        assert j in order;
        var i :| 0 <= i < |order| && order[i] == j;
        assert done[i].name == n;
      }
      assert r.value.Keys == names;
      forall j | 0 <= j < |sessions| && UniqueName(sessions, j)
        ensures r.value[sessions[j].name] == net.single(sign, task, sessions[j]).value
      {
        assert j in order;
        var i :| 0 <= i < |order| && order[i] == j;
        assert done[i].name == sessions[j].name;
        MergeAgree(done, sessions[j].name, net.single(sign, task, sessions[j]).value);
      }
    } else {
      MergeFirstError(done);
      var k :| 0 <= k < |done| && done[k].result == Err(r.error) && forall j :: 0 <= j < k ==> done[j].result.Ok?;
      assert net.single(sign, task, sessions[order[k]]) == Err(r.error);
    }
  }

  /** The merge is keyed, not positional: when the sessions' names differ, the
      completion order changes neither whether it succeeds nor the map. */
  lemma CompletionOrderIrrelevant(
    net: Net, sign: SignActivity, task: Task, sessions: seq<Session>, order1: seq<nat>, order2: seq<nat>)
    requires IsOrder(order1, |sessions|) && IsOrder(order2, |sessions|)
    requires forall j :: 0 <= j < |sessions| ==> UniqueName(sessions, j)
    ensures Merge(Completed(net, sign, task, sessions, order1)).Ok? == Merge(Completed(net, sign, task, sessions, order2)).Ok?
    ensures Merge(Completed(net, sign, task, sessions, order1)).Ok? ==>
      Merge(Completed(net, sign, task, sessions, order1)) == Merge(Completed(net, sign, task, sessions, order2))
  {
    GatherOutcome(net, sign, task, sessions, order1);
    GatherOutcome(net, sign, task, sessions, order2);
    var r1 := Merge(Completed(net, sign, task, sessions, order1));
    var r2 := Merge(Completed(net, sign, task, sessions, order2));
    if r1.Ok? {
      assert r2.Ok?;
      var names := set j | 0 <= j < |sessions| :: sessions[j].name;
      assert r1.value.Keys == names == r2.value.Keys;
      forall n | n in names ensures r1.value[n] == r2.value[n] {
        var j :| 0 <= j < |sessions| && sessions[j].name == n;
        assert UniqueName(sessions, j);
      }
      assert r1.value == r2.value;
    }
  }

  /** A `*_sign_` helper: start a call per session, then insert each result as it
      completes, returning the first error. */
  method Gather(net: Net, sign: SignActivity, task: Task, sessions: seq<Session>, order: seq<nat>)
    returns (r: Result<map<string, SignState>, Error>)
    requires IsOrder(order, |sessions|)
    ensures r == Merge(Completed(net, sign, task, sessions, order))
  {
    ghost var done := Completed(net, sign, task, sessions, order);
    var states: map<string, SignState> := map[];
    var k := 0;
    while k < |order|
      invariant 0 <= k <= |order|
      invariant Merge(done[..k]) == Ok(states)
    {
      assert done[..k + 1][..k] == done[..k];
      var session := sessions[order[k]];
      var result := net.single(sign, task, session);
      if result.Err? {
        MergePrefixAbort(done, k + 1);
        return Err(result.error);
      }
      states := states[session.name := result.value];
      k := k + 1;
    }
    assert done[..k] == done;
    r := Ok(states);
  }

  // ---------------------------------------------------------------------------
  // One activity (mod.rs:122-222)
  // ---------------------------------------------------------------------------

  /** The completion order of the calls for one activity is an ordering of its sessions. */
  predicate CompletionValid(net: Net, sign: SignActivity, sessions: seq<Session>) {
    IsOrder(net.completion(sign, sessions), |sessions|)
  }

  /** The states `handle_account_sign` reports for one activity; none when it signs nobody. */
  function AccountStates(
    store: Store, net: Net, sign: SignActivity, pic: Option<string>, location: Option<int>, pos: Option<string>,
    signcode: Option<string>, sessions: seq<Session>): (r: Result<map<string, SignState>, Error>)
    requires NoPanic(store, sign, pic, sessions) && CompletionValid(net, sign, sessions)
    // signing nobody reports nothing and contacts nobody
    ensures SignsNobody(store, sign, pic, signcode) ==> r == Ok(map[])
    // otherwise every session is signed, and one failed call fails the whole activity
    ensures !SignsNobody(store, sign, pic, signcode) ==>
      var task := TaskOf(net, SignPlan(store, sign, pic, location, pos, signcode).job, sessions);
      && (r.Ok? <==> forall j :: 0 <= j < |sessions| ==> net.single(sign, task, sessions[j]).Ok?)
      && (r.Ok? ==> r.value.Keys == set j | 0 <= j < |sessions| :: sessions[j].name)
      && (r.Err? ==> exists j :: 0 <= j < |sessions| && net.single(sign, task, sessions[j]) == Err(r.error))
  {
    match SignPlan(store, sign, pic, location, pos, signcode)
    case Skip(_) => Ok(map[])
    case Run(job) =>
      var task := TaskOf(net, job, sessions);
      GatherOutcome(net, sign, task, sessions, net.completion(sign, sessions));
      Merge(Completed(net, sign, task, sessions, net.completion(sign, sessions)))
  }

  /** An activity signed for nobody contacts nobody: its result does not depend
      on the network at all. */
  lemma SkipIgnoresNet(
    store: Store, net1: Net, net2: Net, sign: SignActivity, pic: Option<string>, location: Option<int>,
    pos: Option<string>, signcode: Option<string>, sessions: seq<Session>)
    requires NoPanic(store, sign, pic, sessions)
    requires CompletionValid(net1, sign, sessions) && CompletionValid(net2, sign, sessions)
    requires SignsNobody(store, sign, pic, signcode)
    ensures AccountStates(store, net1, sign, pic, location, pos, signcode, sessions) ==
      AccountStates(store, net2, sign, pic, location, pos, signcode, sessions)
  {
  }

  /** `handle_account_sign`. */
  method HandleAccountSign(
    store: Store, net: Net, sign: SignActivity, pic: Option<string>, location: Option<int>, pos: Option<string>,
    signcode: Option<string>, sessions: seq<Session>) returns (r: Result<map<string, SignState>, Error>)
    requires NoPanic(store, sign, pic, sessions) && CompletionValid(net, sign, sessions)
    ensures r == AccountStates(store, net, sign, pic, location, pos, signcode, sessions)
  {
    var plan := SignPlan(store, sign, pic, location, pos, signcode);
    if plan.Skip? {
      return Ok(map[]);
    }
    var task := TaskOf(net, plan.job, sessions);
    r := Gather(net, sign, task, sessions, net.completion(sign, sessions));
  }

  // ---------------------------------------------------------------------------
  // Choosing the activities and accounts (mod.rs:224-265)
  // ---------------------------------------------------------------------------

  /** The first entry, in iteration order, whose activity has the id `key`. */
  function Find(entries: seq<Target>, key: string): (r: Option<nat>)
    ensures r.Some? ==>
      && r.value < |entries| && entries[r.value].sign.id == key
      && forall k :: 0 <= k < r.value ==> entries[k].sign.id != key
    ensures r.None? <==> forall k :: 0 <= k < |entries| ==> entries[k].sign.id != key
    decreases |entries|
  {
    if entries == [] then None
    else if entries[0].sign.id == key then Some(0)
    else
      match Find(entries[1..], key)
      case None => None
      case Some(k) => Some(k + 1)
  }

  /** The activity with id `activeId`: looked for among the active check-ins first. */
  function Lookup(asigns: seq<Target>, osigns: seq<Target>, activeId: int): (r: Option<Target>)
    ensures Find(asigns, Activities.IntToString(activeId)).Some? ==>
      r == Some(asigns[Find(asigns, Activities.IntToString(activeId)).value])
    ensures Find(asigns, Activities.IntToString(activeId)).None? ==>
      r == if Find(osigns, Activities.IntToString(activeId)).Some?
           then Some(osigns[Find(osigns, Activities.IntToString(activeId)).value]) else None
    ensures r.Some? ==> r.value.sign.id == Activities.IntToString(activeId)
  {
    var key := Activities.IntToString(activeId);
    match Find(asigns, key)
    case Some(k) => Some(asigns[k])
    case None =>
      match Find(osigns, key)
      case Some(k) => Some(osigns[k])
      case None => None
  }

  /** `--account` replaces the session list by that one account's session. */
  function Override(t: Target, sessions: map<string, Session>, account: Option<string>): (r: Target)
    requires account.Some? ==> account.value in sessions
    ensures r.sign == t.sign
    ensures account.Some? ==> r.sessions == [sessions[account.value]]
    ensures account.None? ==> r.sessions == t.sessions
  {
    if account.Some? then Target(t.sign, [sessions[account.value]]) else t
  }

  /** The activities `sign` handles, in order, with the sessions for each. */
  function Targets(
    asigns: seq<Target>, osigns: seq<Target>, sessions: map<string, Session>, activity: Option<int>,
    account: Option<string>): (r: seq<Target>)
    requires account.Some? ==> account.value in sessions
    requires activity.Some? ==> Lookup(asigns, osigns, activity.value).Some?
    // by id: exactly the activity found
    ensures activity.Some? ==> |r| == 1 && r[0].sign == Lookup(asigns, osigns, activity.value).value.sign
    // without an id: every active check-in in order; `osigns` plays no part
    ensures activity.None? ==> |r| == |asigns| && forall k :: 0 <= k < |r| ==> r[k].sign == asigns[k].sign
    ensures account.Some? ==> forall k :: 0 <= k < |r| ==> r[k].sessions == [sessions[account.value]]
    ensures account.None? && activity.None? ==> r == asigns
    ensures account.None? && activity.Some? ==> r == [Lookup(asigns, osigns, activity.value).value]
  {
    if activity.Some? then [Override(Lookup(asigns, osigns, activity.value).value, sessions, account)]
    else OverrideAll(asigns, sessions, account)
  }

  /** The override applied to each entry. */
  function OverrideAll(entries: seq<Target>, sessions: map<string, Session>, account: Option<string>): (r: seq<Target>)
    requires account.Some? ==> account.value in sessions
    ensures |r| == |entries| && forall k :: 0 <= k < |r| ==> r[k] == Override(entries[k], sessions, account)
  {
    seq(|entries|, k requires 0 <= k < |entries| => Override(entries[k], sessions, account))
  }

  /** What is reported for an activity: its states, when there are any. */
  datatype Report = Report(sign: SignActivity, states: map<string, SignState>)

  /** Every report holds at least one state. */
  predicate AllNonEmpty(reports: seq<Report>) {
    forall k :: 0 <= k < |reports| ==> reports[k].states != map[]
  }

  predicate AllRunnable(store: Store, net: Net, targets: seq<Target>, pic: Option<string>) {
    forall k :: 0 <= k < |targets| ==>
      NoPanic(store, targets[k].sign, pic, targets[k].sessions) && CompletionValid(net, targets[k].sign, targets[k].sessions)
  }

  /** The activities handled one after the other; the first error ends the command. */
  function RunAll(
    store: Store, net: Net, targets: seq<Target>, pic: Option<string>, location: Option<int>, pos: Option<string>,
    signcode: Option<string>): (r: Result<seq<Report>, Error>)
    requires AllRunnable(store, net, targets, pic)
    ensures r.Ok? ==> |r.value| <= |targets|
    ensures r.Ok? ==> AllNonEmpty(r.value)
    decreases |targets|
  {
    if targets == [] then Ok([])
    else
      var front := targets[..|targets| - 1];
      var t := targets[|targets| - 1];
      assert forall i :: 0 <= i < |front| ==> front[i] == targets[i];
      match RunAll(store, net, front, pic, location, pos, signcode)
      case Err(e) => Err(e)
      case Ok(reports) =>
        match AccountStates(store, net, t.sign, pic, location, pos, signcode, t.sessions)
        case Err(e) => Err(e)
        case Ok(states) => Ok(AddReport(reports, t.sign, states))
  }

  /** The command succeeds exactly when every activity it handles does. */
  lemma RunAllOkEach(
    store: Store, net: Net, targets: seq<Target>, pic: Option<string>, location: Option<int>, pos: Option<string>,
    signcode: Option<string>)
    requires AllRunnable(store, net, targets, pic)
    ensures RunAll(store, net, targets, pic, location, pos, signcode).Ok? <==> forall i :: 0 <= i < |targets| ==>
      AccountStates(store, net, targets[i].sign, pic, location, pos, signcode, targets[i].sessions).Ok?
  {
    if RunAll(store, net, targets, pic, location, pos, signcode).Ok? {
      RunAllOkOnlyIfEach(store, net, targets, pic, location, pos, signcode);
    } else if forall i :: 0 <= i < |targets| ==>
      AccountStates(store, net, targets[i].sign, pic, location, pos, signcode, targets[i].sessions).Ok?
    {
      RunAllOkIfEach(store, net, targets, pic, location, pos, signcode);
    }
  }

  /** Success of the whole command means success of each activity. */
  lemma RunAllOkOnlyIfEach(
    store: Store, net: Net, targets: seq<Target>, pic: Option<string>, location: Option<int>, pos: Option<string>,
    signcode: Option<string>)
    requires AllRunnable(store, net, targets, pic)
    requires RunAll(store, net, targets, pic, location, pos, signcode).Ok?
    ensures forall i :: 0 <= i < |targets| ==>
      AccountStates(store, net, targets[i].sign, pic, location, pos, signcode, targets[i].sessions).Ok?
  {
    forall i | 0 <= i < |targets|
      ensures AccountStates(store, net, targets[i].sign, pic, location, pos, signcode, targets[i].sessions).Ok?
    {
      RunAllStep(store, net, targets, i, pic, location, pos, signcode);
      RunAllPrefix(store, net, targets, pic, location, pos, signcode, i + 1);
    }
  }

  /** Success of each activity means success of the whole command. */
  lemma {:induction false} RunAllOkIfEach(
    store: Store, net: Net, targets: seq<Target>, pic: Option<string>, location: Option<int>, pos: Option<string>,
    signcode: Option<string>)
    requires AllRunnable(store, net, targets, pic)
    requires forall i :: 0 <= i < |targets| ==>
      AccountStates(store, net, targets[i].sign, pic, location, pos, signcode, targets[i].sessions).Ok?
    ensures RunAll(store, net, targets, pic, location, pos, signcode).Ok?
    decreases |targets|
  {
    if targets != [] {
      var n := |targets| - 1;
      RunAllStep(store, net, targets, n, pic, location, pos, signcode);
      assert forall i :: 0 <= i < n ==> targets[..n][i] == targets[i];
      RunAllOkIfEach(store, net, targets[..n], pic, location, pos, signcode);
      assert targets[..n + 1] == targets;
    }
  }

  /** A failed prefix is the command's result. */
  lemma RunAllPrefix(
    store: Store, net: Net, targets: seq<Target>, pic: Option<string>, location: Option<int>, pos: Option<string>,
    signcode: Option<string>, k: nat)
    requires k <= |targets| && AllRunnable(store, net, targets, pic)
    ensures AllRunnable(store, net, targets[..k], pic)
    ensures RunAll(store, net, targets[..k], pic, location, pos, signcode).Err? ==>
      RunAll(store, net, targets, pic, location, pos, signcode) == RunAll(store, net, targets[..k], pic, location, pos, signcode)
  {
    if RunAll(store, net, targets[..k], pic, location, pos, signcode).Err? {
      RunAllAbort(store, net, targets, pic, location, pos, signcode, k);
    }
  }

  /** The report of an activity is added when it has any states. */
  function AddReport(reports: seq<Report>, sign: SignActivity, states: map<string, SignState>): (r: seq<Report>)
    // earlier reports stay; one is added exactly when there are states, and it is this activity's
    ensures |r| == |reports| + (if states == map[] then 0 else 1) && r[..|reports|] == reports
    ensures |r| > |reports| ==> r[|reports|] == Report(sign, states)
    ensures AllNonEmpty(reports) ==> AllNonEmpty(r)
  {
    if states == map[] then reports else reports + [Report(sign, states)]
  }

  /** A failure of a prefix of the activities is the command's failure. */
  lemma {:induction false} RunAllAbort(
    store: Store, net: Net, targets: seq<Target>, pic: Option<string>, location: Option<int>, pos: Option<string>,
    signcode: Option<string>, k: nat)
    requires k <= |targets| && AllRunnable(store, net, targets, pic)
    requires RunAll(store, net, targets[..k], pic, location, pos, signcode).Err?
    ensures RunAll(store, net, targets, pic, location, pos, signcode) == RunAll(store, net, targets[..k], pic, location, pos, signcode)
    decreases |targets| - k
  {
    if k < |targets| {
      assert targets[..k + 1][..k] == targets[..k];
      RunAllAbort(store, net, targets, pic, location, pos, signcode, k + 1);
    } else {
      assert targets[..k] == targets;
    }
  }

  /** The `for (sign, full_sessions) in &asigns` loop: every active check-in in
      order, each for the overriding account or its own sessions. */
  method SignActive(
    store: Store, net: Net, sessions: map<string, Session>, asigns: seq<Target>, account: Option<string>,
    location: Option<int>, pos: Option<string>, pic: Option<string>, signcode: Option<string>)
    returns (r: Result<seq<Report>, Error>)
    requires account.Some? ==> account.value in sessions
    requires AllRunnable(store, net, OverrideAll(asigns, sessions, account), pic)
    ensures r == RunAll(store, net, OverrideAll(asigns, sessions, account), pic, location, pos, signcode)
  {
    ghost var targets := OverrideAll(asigns, sessions, account);
    var reports: seq<Report> := [];
    var i := 0;
    while i < |asigns|
      invariant 0 <= i <= |asigns|
      invariant RunAll(store, net, targets[..i], pic, location, pos, signcode) == Ok(reports)
    {
      var t := Override(asigns[i], sessions, account);
      assert targets[i] == t;
      RunAllStep(store, net, targets, i, pic, location, pos, signcode);
      var states := HandleAccountSign(store, net, t.sign, pic, location, pos, signcode, t.sessions);
      if states.Err? {
        RunAllAbort(store, net, targets, pic, location, pos, signcode, i + 1);
        return Err(states.error);
      }
      reports := AddReport(reports, t.sign, states.value);
      i := i + 1;
    }
    assert targets[..i] == targets;
    r := Ok(reports);
  }

  /** The activities up to and including `targets[i]`. */
  lemma RunAllStep(
    store: Store, net: Net, targets: seq<Target>, i: nat, pic: Option<string>, location: Option<int>,
    pos: Option<string>, signcode: Option<string>)
    requires i < |targets| && AllRunnable(store, net, targets, pic)
    ensures AllRunnable(store, net, targets[..i], pic) && AllRunnable(store, net, targets[..i + 1], pic)
    ensures NoPanic(store, targets[i].sign, pic, targets[i].sessions) && CompletionValid(net, targets[i].sign, targets[i].sessions)
    ensures RunAll(store, net, targets[..i + 1], pic, location, pos, signcode) ==
      match RunAll(store, net, targets[..i], pic, location, pos, signcode)
      case Err(e) => Err(e)
      case Ok(reports) =>
        match AccountStates(store, net, targets[i].sign, pic, location, pos, signcode, targets[i].sessions)
        case Err(e) => Err(e)
        case Ok(states) => Ok(AddReport(reports, targets[i].sign, states))
  {
    var ts := targets[..i + 1];
    assert ts[..i] == targets[..i] && ts[i] == targets[i];
  }

  /** A single activity's reports. */
  lemma RunAllOne(
    store: Store, net: Net, t: Target, pic: Option<string>, location: Option<int>, pos: Option<string>,
    signcode: Option<string>)
    requires NoPanic(store, t.sign, pic, t.sessions) && CompletionValid(net, t.sign, t.sessions)
    ensures AllRunnable(store, net, [t], pic)
    ensures RunAll(store, net, [t], pic, location, pos, signcode) ==
      match AccountStates(store, net, t.sign, pic, location, pos, signcode, t.sessions)
      case Err(e) => Err(e)
      case Ok(states) => Ok(AddReport([], t.sign, states))
  {
    assert AllRunnable(store, net, [t], pic);
    assert [t][..1] == [t];
    RunAllStep(store, net, [t], 0, pic, location, pos, signcode);
  }

  /** `sign`: the activity given by id (panicking when there is none), or every
      active check-in, each handled for the overriding account or its own sessions. */
  method Sign(
    store: Store, net: Net, sessions: map<string, Session>, asigns: seq<Target>, osigns: seq<Target>,
    activity: Option<int>, account: Option<string>, location: Option<int>, pos: Option<string>,
    pic: Option<string>, signcode: Option<string>) returns (r: Result<seq<Report>, Error>)
    requires account.Some? ==> account.value in sessions
    requires activity.Some? ==> Lookup(asigns, osigns, activity.value).Some?
    requires AllRunnable(store, net, Targets(asigns, osigns, sessions, activity, account), pic)
    ensures r == RunAll(store, net, Targets(asigns, osigns, sessions, activity, account), pic, location, pos, signcode)
  {
    if activity.None? {
      r := SignActive(store, net, sessions, asigns, account, location, pos, pic, signcode);
      return;
    }
    var t := Override(Lookup(asigns, osigns, activity.value).value, sessions, account);
    assert Targets(asigns, osigns, sessions, activity, account) == [t];
    assert Targets(asigns, osigns, sessions, activity, account)[0] == t;
    RunAllOne(store, net, t, pic, location, pos, signcode);
    var states := HandleAccountSign(store, net, t.sign, pic, location, pos, signcode, t.sessions);
    if states.Err? {
      return Err(states.error);
    }
    r := Ok(AddReport([], t.sign, states.value));
  }
}
