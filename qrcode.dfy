/** The QR-code signer (`DefaultQrCodeSignner::sign`): it builds the ordered
    list of candidate locations, resolves the `enc` token of the QR code, stores
    it on the sign, and then, session by session, runs a pre-check followed by a
    strictly ordered trial of the candidate locations.

    The database, the check-in log, the file system, screen capture and the two
    requests (`pre_sign`, `sign_unchecked`) are the fields of `Env`: each is a
    function from what the call is given to what it returns. A request sees the
    sign as it is at the time of the call (`SignView`): the `enc` set on it and
    the location last set on it, which carries over from one session to the
    next. */
module QrCodeSigner {
  import opened Wrappers
  import Activities

  /** The signer's error type: `EncError` for a missing token, anything else
      (transport, file-system) as `Other`. */
  datatype Error = EncError(msg: string) | Other(reason: string)

  datatype SignResult = Susses | Fail(msg: string)

  datatype Location = Location(addr: string, lon: string, lat: string, alt: string)

  /** A location advertised by the platform for one activity, with its radius. */
  datatype LocationWithRange = LocationWithRange(addr: string, lon: string, lat: string, alt: string, range: int)

  datatype Session = Session(uid: string, stuName: string)

  /** The failure message that means the account has already checked in. */
  const ALREADY_SIGNED: string := "您已签到过了"
  /** The result of a session for which every candidate location failed. */
  const ALL_LOCATIONS_UNAVAILABLE: string := "所有位置均不可用"
  const NO_PICTURE_IN_DIR: string := "图片文件夹下没有图片（`png` 或 `jpg` 文件）！"
  const NO_ENC_IN_QRCODE: string := "二维码中没有 `enc` 参数！"
  const NO_ENC_ON_SCREEN: string := "截屏时未获取到 `enc` 参数！"

  /** What a request built from the sign sees of it. */
  datatype SignView = SignView(enc: Option<string>, location: Option<Location>)

  datatype Env = Env(
    // `通过位置字符串决定位置(db, location_str)`: a saved or parsed location, or the fallback string
    resolveLocation: Option<string> -> Result<Location, string>,
    // `LocationWithRange::from_log(session, course)`: activity id to advertised location
    presetsFromLog: (Session, Activities.Course) -> Result<map<string, LocationWithRange>, Error>,
    // `LocationTable::get_location_list_by_course(id)`; id -1 holds the global locations
    locationsByCourse: int -> seq<Location>,
    // `LocationWithRange::to_location` and `to_shifted_location` (random jitter)
    toLocation: LocationWithRange -> Location,
    toShiftedLocation: LocationWithRange -> Location,
    // `std::fs::metadata(path)`: None when it fails, else whether the path is a directory
    isDir: string -> Option<bool>,
    // `pic_dir_or_path_to_pic_path(dir)`: the picture chosen in a directory
    picInDir: string -> Result<Option<string>, Error>,
    // `扫描路径中二维码并获取签到所需参数(path)`: the `enc` of the QR code in a picture
    scanQrCode: string -> Option<string>,
    // `截屏获取二维码签到所需参数(live, precisely)`: the `enc` of a QR code on screen
    captureQrCode: (bool, bool) -> Option<string>,
    preSign: (Session, SignView) -> Result<SignResult, Error>,
    signUnchecked: (Session, SignView) -> Result<SignResult, Error>)

  /** The signer's configuration; the database is reached through `Env`. */
  datatype Signner = Signner(
    locationStr: Option<string>,
    path: Option<string>,
    enc: Option<string>,
    precisely: bool,
    noRandShift: bool)

  /** A QR-code check-in; `refresh` tells `RefreshQrCodeSign` from `NormalQrCodeSign`. */
  class QrCodeSign {
    const inner: Activities.RawSign
    const refresh: bool
    var enc: Option<string>
    var location: Option<Location>

    constructor (inner: Activities.RawSign, refresh: bool)
      ensures this.inner == inner && this.refresh == refresh
      ensures enc == None && location == None
    {
      this.inner := inner;
      this.refresh := refresh;
      enc := None;
      location := None;
    }

    function View(): (v: SignView)
      reads this
      ensures v.enc == enc && v.location == location
    {
      SignView(enc, location)
    }

    method SetEnc(e: string)
      modifies this`enc
      ensures enc == Some(e)
    {
      enc := Some(e);
    }

    method SetLocation(l: Location)
      modifies this`location
      ensures location == Some(l)
    {
      location := Some(l);
    }
  }

  // ---------------------------------------------------------------------------
  // Candidate locations (qrcode.rs:46-87)
  // ---------------------------------------------------------------------------

  /** The preset map: read from the first session's log only, empty without sessions. */
  function PresetMap(env: Env, course: Activities.Course, sessions: seq<Session>): Result<map<string, LocationWithRange>, Error>
  {
    if sessions == [] then Ok(map[]) else env.presetsFromLog(sessions[0], course)
  }

  /** The preset location of this activity, jittered unless `no_rand_shift`. */
  function PresetFor(env: Env, cfg: Signner, inner: Activities.RawSign, sessions: seq<Session>): (p: Option<Location>)
    ensures p.Some? <==>
      sessions != [] && env.presetsFromLog(sessions[0], inner.course).Ok?
      && inner.activeId in env.presetsFromLog(sessions[0], inner.course).value
    ensures p.Some? ==>
      var l := env.presetsFromLog(sessions[0], inner.course).value[inner.activeId];
      p.value == if cfg.noRandShift then env.toLocation(l) else env.toShiftedLocation(l)
  {
    match PresetMap(env, inner.course, sessions)
    case Err(_) => None
    case Ok(presets) =>
      if inner.activeId in presets then
        var l := presets[inner.activeId];
        Some(if cfg.noRandShift then env.toLocation(l) else env.toShiftedLocation(l))
      else None
  }

  /** The ordered candidate list, or the error of reading the first session's log. */
  function Candidates(env: Env, cfg: Signner, inner: Activities.RawSign, sessions: seq<Session>): (r: Result<seq<Location>, Error>)
    // a resolvable location string is the only candidate; nothing else is read
    ensures env.resolveLocation(cfg.locationStr).Ok? ==> r == Ok([env.resolveLocation(cfg.locationStr).value])
    // the only error is the first session's log failing
    ensures r.Err? <==>
      env.resolveLocation(cfg.locationStr).Err? && sessions != [] && env.presetsFromLog(sessions[0], inner.course).Err?
    ensures r.Err? ==> r.error == env.presetsFromLog(sessions[0], inner.course).error
    // empty fallback: global locations, then the course's, then the preset
    ensures env.resolveLocation(cfg.locationStr) == Err("") && r.Ok? ==>
      var global, course := env.locationsByCourse(-1), env.locationsByCourse(inner.course.id);
      var p := PresetFor(env, cfg, inner, sessions);
      && |r.value| == |global| + |course| + (if p.Some? then 1 else 0)
      && r.value[..|global|] == global
      && r.value[|global|..|global| + |course|] == course
      && (p.Some? ==> r.value[|r.value| - 1] == p.value)
    // named fallback: that name at the preset's coordinates, or nothing
    ensures env.resolveLocation(cfg.locationStr).Err? && env.resolveLocation(cfg.locationStr).error != "" && r.Ok? ==>
      var name, p := env.resolveLocation(cfg.locationStr).error, PresetFor(env, cfg, inner, sessions);
      && (p.None? ==> r.value == [])
      && (p.Some? ==> r.value == [Location(name, p.value.lon, p.value.lat, p.value.alt)])
  {
    match env.resolveLocation(cfg.locationStr)
    case Ok(l) => Ok([l])
    case Err(fallback) =>
      match PresetMap(env, inner.course, sessions)
      case Err(e) => Err(e)
      case Ok(_) =>
        var p := PresetFor(env, cfg, inner, sessions);
        if fallback == "" then
          Ok(env.locationsByCourse(-1) + env.locationsByCourse(inner.course.id) + if p.Some? then [p.value] else [])
        else if p.Some? then
          Ok([Location(fallback, p.value.lon, p.value.lat, p.value.alt)])
        else
          Ok([])
  }

  /** Only the first session decides the preset: two session lists with the same
      head give the same candidates. */
  lemma PresetFromFirstSessionOnly(env: Env, cfg: Signner, inner: Activities.RawSign, s1: seq<Session>, s2: seq<Session>)
    requires s1 != [] && s2 != [] && s1[0] == s2[0]
    ensures Candidates(env, cfg, inner, s1) == Candidates(env, cfg, inner, s2)
  {
  }

  // ---------------------------------------------------------------------------
  // The `enc` token (qrcode.rs:88-123)
  // ---------------------------------------------------------------------------

  /** `std::fs::metadata(pic).unwrap()` panics when the path cannot be read. */
  predicate PathReadable(env: Env, cfg: Signner) {
    cfg.enc.None? && cfg.path.Some? ==> env.isDir(cfg.path.value).Some?
  }

  /** The token: explicit value, else the picture at the path (or the one chosen
      in the directory), else a screen capture, live for a refreshing QR code. */
  function ResolveEnc(env: Env, cfg: Signner, refresh: bool): (r: Result<string, Error>)
    requires PathReadable(env, cfg)
    // an explicit token wins; neither the path nor the screen is consulted
    ensures cfg.enc.Some? ==> r == Ok(cfg.enc.value)
    // a file: its QR code's token, or the "no enc in QR code" error
    ensures cfg.enc.None? && cfg.path.Some? && !env.isDir(cfg.path.value).value ==>
      && (r.Ok? <==> env.scanQrCode(cfg.path.value).Some?)
      && (r.Ok? ==> r.value == env.scanQrCode(cfg.path.value).value)
      && (r.Err? ==> r.error == EncError(NO_ENC_IN_QRCODE))
    // a directory: the token of its chosen picture; a failed choice propagates,
    // no picture or no token is the "no picture" error
    ensures cfg.enc.None? && cfg.path.Some? && env.isDir(cfg.path.value).value ==>
      var chosen := env.picInDir(cfg.path.value);
      && (r.Ok? <==> chosen.Ok? && chosen.value.Some? && env.scanQrCode(chosen.value.value).Some?)
      && (r.Ok? ==> r.value == env.scanQrCode(chosen.value.value).value)
      && (chosen.Err? ==> r == Err(chosen.error))
      && (chosen.Ok? && r.Err? ==> r.error == EncError(NO_PICTURE_IN_DIR))
    // no path: a capture, live exactly for a refreshing QR code
    ensures cfg.enc.None? && cfg.path.None? ==>
      && (r.Ok? <==> env.captureQrCode(refresh, cfg.precisely).Some?)
      && (r.Ok? ==> r.value == env.captureQrCode(refresh, cfg.precisely).value)
      && (r.Err? ==> r.error == EncError(NO_ENC_ON_SCREEN))
  {
    if cfg.enc.Some? then Ok(cfg.enc.value)
    else if cfg.path.Some? then
      var pic := cfg.path.value;
      if env.isDir(pic).value then
        match env.picInDir(pic)
        case Err(e) => Err(e)
        case Ok(chosen) =>
          if chosen.Some? && env.scanQrCode(chosen.value).Some? then Ok(env.scanQrCode(chosen.value).value)
          else Err(EncError(NO_PICTURE_IN_DIR))
      else if env.scanQrCode(pic).Some? then Ok(env.scanQrCode(pic).value)
      else Err(EncError(NO_ENC_IN_QRCODE))
    else
      match env.captureQrCode(refresh, cfg.precisely)
      case Some(enc) => Ok(enc)
      case None => Err(EncError(NO_ENC_ON_SCREEN))
  }

  // ---------------------------------------------------------------------------
  // The per-session loop (qrcode.rs:124-160)
  // ---------------------------------------------------------------------------

  /** A result together with the location left on the sign afterwards. */
  datatype Outcome<T> = Outcome(result: Result<T, Error>, location: Option<Location>)

  /** The request made at candidate `l`. */
  function Attempt(env: Env, session: Session, enc: string, l: Location): Result<SignResult, Error>
  {
    env.signUnchecked(session, SignView(Some(enc), Some(l)))
  }

  /** An attempt result that ends the trial: an error, a success, or "already signed". */
  predicate Stops(a: Result<SignResult, Error>) {
    a.Err? || a.value.Susses? || a.value.msg == ALREADY_SIGNED
  }

  /** Trying `locs` in order from a sign whose location is `loc`. */
  function TryLocations(env: Env, session: Session, enc: string, loc: Option<Location>, locs: seq<Location>): (o: Outcome<SignResult>)
    ensures o.result.Ok? ==> o.result.value == Susses || o.result.value == Fail(ALL_LOCATIONS_UNAVAILABLE)
    ensures locs == [] ==> o == Outcome(Ok(Fail(ALL_LOCATIONS_UNAVAILABLE)), loc)
    ensures locs != [] ==> o.location.Some? && o.location.value in locs
    decreases |locs|
  {
    if locs == [] then Outcome(Ok(Fail(ALL_LOCATIONS_UNAVAILABLE)), loc)
    else
      var l := locs[0];
      match Attempt(env, session, enc, l)
      case Err(e) => Outcome(Err(e), Some(l))
      case Ok(Susses) => Outcome(Ok(Susses), Some(l))
      case Ok(Fail(msg)) =>
        if msg == ALREADY_SIGNED then Outcome(Ok(Susses), Some(l))
        else TryLocations(env, session, enc, Some(l), locs[1..])
  }

  /** The trial ends at the first candidate whose attempt stops it: that
      candidate is the last one set on the sign, an error there is the result,
      and anything else there is a success. */
  lemma {:induction false} TryLocationsStopsAtFirst(
    env: Env, session: Session, enc: string, loc: Option<Location>, locs: seq<Location>, k: nat)
    requires k < |locs| && Stops(Attempt(env, session, enc, locs[k]))
    requires forall j :: 0 <= j < k ==> !Stops(Attempt(env, session, enc, locs[j]))
    ensures TryLocations(env, session, enc, loc, locs) ==
      Outcome(if Attempt(env, session, enc, locs[k]).Err? then Err(Attempt(env, session, enc, locs[k]).error) else Ok(Susses),
              Some(locs[k]))
    decreases k
  {
    if k > 0 {
      assert !Stops(Attempt(env, session, enc, locs[0]));
      assert forall j :: 0 <= j < k - 1 ==> locs[1..][j] == locs[j + 1];
      TryLocationsStopsAtFirst(env, session, enc, Some(locs[0]), locs[1..], k - 1);
    }
  }

  /** When no attempt stops the trial, every candidate is tried and the result is
      "all locations unavailable", with the last candidate left on the sign. */
  lemma {:induction false} TryLocationsExhausted(
    env: Env, session: Session, enc: string, loc: Option<Location>, locs: seq<Location>)
    requires forall j :: 0 <= j < |locs| ==> !Stops(Attempt(env, session, enc, locs[j]))
    ensures TryLocations(env, session, enc, loc, locs) ==
      Outcome(Ok(Fail(ALL_LOCATIONS_UNAVAILABLE)), if locs == [] then loc else Some(locs[|locs| - 1]))
    decreases |locs|
  {
    if locs != [] {
      assert !Stops(Attempt(env, session, enc, locs[0]));
      assert forall j :: 0 <= j < |locs| - 1 ==> locs[1..][j] == locs[j + 1];
      TryLocationsExhausted(env, session, enc, Some(locs[0]), locs[1..]);
    }
  }

  /** Candidates after the one that ended the trial are never reached: appending
      more candidates changes neither a success nor an error. */
  lemma {:induction false} LaterCandidatesUnused(
    env: Env, session: Session, enc: string, loc: Option<Location>, locs: seq<Location>, more: seq<Location>)
    requires TryLocations(env, session, enc, loc, locs).result != Ok(Fail(ALL_LOCATIONS_UNAVAILABLE))
    ensures TryLocations(env, session, enc, loc, locs + more) == TryLocations(env, session, enc, loc, locs)
    decreases |locs|
  {
    assert locs != [];
    assert (locs + more)[0] == locs[0];
    assert (locs + more)[1..] == locs[1..] + more;
    if !Stops(Attempt(env, session, enc, locs[0])) {
      LaterCandidatesUnused(env, session, enc, Some(locs[0]), locs[1..], more);
    }
  }

  /** One session: the pre-check, then the candidates when it fails. */
  function SessionState(env: Env, session: Session, enc: string, loc: Option<Location>, locs: seq<Location>): (o: Outcome<SignResult>)
    // a successful pre-check is the session's result and no candidate is set
    ensures env.preSign(session, SignView(Some(enc), loc)) == Ok(Susses) ==> o == Outcome(Ok(Susses), loc)
    ensures o.result.Ok? ==> o.result.value == Susses || o.result.value == Fail(ALL_LOCATIONS_UNAVAILABLE)
    ensures env.preSign(session, SignView(Some(enc), loc)).Err? ==> o == Outcome(Err(env.preSign(session, SignView(Some(enc), loc)).error), loc)
    // a failed pre-check hands over to the trial of the candidates
    ensures env.preSign(session, SignView(Some(enc), loc)).Ok? && env.preSign(session, SignView(Some(enc), loc)).value.Fail? ==>
      o == TryLocations(env, session, enc, loc, locs)
  {
    match env.preSign(session, SignView(Some(enc), loc))
    case Err(e) => Outcome(Err(e), loc)
    case Ok(Susses) => Outcome(Ok(Susses), loc)
    case Ok(Fail(_)) => TryLocations(env, session, enc, loc, locs)
  }

  /** Every value of the map is a success or "all locations unavailable". */
  predicate Settled(m: map<Session, SignResult>) {
    forall s :: s in m ==> m[s] == Susses || m[s] == Fail(ALL_LOCATIONS_UNAVAILABLE)
  }

  /** The sessions in order, each result inserted into `acc`; an error aborts. */
  function SignSessions(
    env: Env, sessions: seq<Session>, enc: string, loc: Option<Location>, locs: seq<Location>,
    acc: map<Session, SignResult>): (o: Outcome<map<Session, SignResult>>)
    ensures o.result.Ok? ==> o.result.value.Keys == acc.Keys + set s | s in sessions
    ensures o.result.Ok? && Settled(acc) ==> Settled(o.result.value)
    decreases |sessions|
  {
    if sessions == [] then Outcome(Ok(acc), loc)
    else
      var st := SessionState(env, sessions[0], enc, loc, locs);
      match st.result
      case Err(e) => Outcome(Err(e), st.location)
      case Ok(v) => SignSessions(env, sessions[1..], enc, st.location, locs, acc[sessions[0] := v])
  }

  /** Running a list of sessions is running its front, then, unless the front
      failed, its back from the map and the location the front left. */
  lemma {:induction false} SignSessionsAppend(
    env: Env, front: seq<Session>, back: seq<Session>, enc: string, loc: Option<Location>, locs: seq<Location>,
    acc: map<Session, SignResult>)
    ensures var f := SignSessions(env, front, enc, loc, locs, acc);
      SignSessions(env, front + back, enc, loc, locs, acc) ==
        if f.result.Err? then f else SignSessions(env, back, enc, f.location, locs, f.result.value)
    decreases |front|
  {
    if front == [] {
      assert front + back == back;
    } else {
      assert (front + back)[0] == front[0];
      assert (front + back)[1..] == front[1..] + back;
      var st := SessionState(env, front[0], enc, loc, locs);
      if st.result.Ok? {
        SignSessionsAppend(env, front[1..], back, enc, st.location, locs, acc[front[0] := st.result.value]);
      }
    }
  }

  /** A session absent from the rest of the list keeps the entry it already has. */
  lemma {:induction false} SignSessionsKeep(
    env: Env, sessions: seq<Session>, enc: string, loc: Option<Location>, locs: seq<Location>,
    acc: map<Session, SignResult>, s: Session)
    requires s in acc && s !in sessions
    requires SignSessions(env, sessions, enc, loc, locs, acc).result.Ok?
    ensures SignSessions(env, sessions, enc, loc, locs, acc).result.value[s] == acc[s]
    decreases |sessions|
  {
    if sessions != [] {
      var st := SessionState(env, sessions[0], enc, loc, locs);
      assert s != sessions[0];
      assert forall j :: 0 <= j < |sessions| - 1 ==> sessions[1..][j] == sessions[j + 1];
      SignSessionsKeep(env, sessions[1..], enc, st.location, locs, acc[sessions[0] := st.result.value], s);
    }
  }

  /** When the sessions before the k-th all succeed and the k-th fails, at the
      location the earlier sessions left on the sign, the whole run fails with
      that session's error; later sessions are not run. */
  lemma SignSessionsAbort(
    env: Env, sessions: seq<Session>, enc: string, loc: Option<Location>, locs: seq<Location>,
    acc: map<Session, SignResult>, k: nat)
    requires k < |sessions|
    requires SignSessions(env, sessions[..k], enc, loc, locs, acc).result.Ok?
    requires SessionState(env, sessions[k], enc, SignSessions(env, sessions[..k], enc, loc, locs, acc).location, locs).result.Err?
    ensures var st := SessionState(env, sessions[k], enc, SignSessions(env, sessions[..k], enc, loc, locs, acc).location, locs);
      SignSessions(env, sessions, enc, loc, locs, acc) == Outcome(Err(st.result.error), st.location)
  {
    assert sessions == sessions[..k] + sessions[k..];
    assert sessions[k..][0] == sessions[k];
    SignSessionsAppend(env, sessions[..k], sessions[k..], enc, loc, locs, acc);
  }

  /** In a successful run, the entry of a session that does not occur again
      later is the result of that session's own pre-check and trial, run at the
      location the earlier sessions left on the sign. */
  lemma SignSessionsPointwise(
    env: Env, sessions: seq<Session>, enc: string, loc: Option<Location>, locs: seq<Location>,
    acc: map<Session, SignResult>, k: nat)
    requires k < |sessions| && sessions[k] !in sessions[k + 1..]
    requires SignSessions(env, sessions, enc, loc, locs, acc).result.Ok?
    ensures SignSessions(env, sessions[..k], enc, loc, locs, acc).result.Ok?
    ensures var st := SessionState(env, sessions[k], enc, SignSessions(env, sessions[..k], enc, loc, locs, acc).location, locs);
      && st.result.Ok?
      && SignSessions(env, sessions, enc, loc, locs, acc).result.value[sessions[k]] == st.result.value
  {
    var f := SignSessions(env, sessions[..k], enc, loc, locs, acc);
    assert sessions == sessions[..k] + sessions[k..];
    SignSessionsAppend(env, sessions[..k], sessions[k..], enc, loc, locs, acc);
    var st := SessionState(env, sessions[k], enc, f.location, locs);
    assert sessions[k..][0] == sessions[k] && sessions[k..][1..] == sessions[k + 1..];
    var m := f.result.value[sessions[k] := st.result.value];
    SignSessionsKeep(env, sessions[k + 1..], enc, st.location, locs, m, sessions[k]);
  }

  /** Two accounts whose pre-checks fail and three candidates: the first account
      succeeds only at the third, the second at none. The first gets a success,
      the second "all locations unavailable"; the second account's pre-check
      sees the third candidate still set on the sign. */
  lemma TwoAccountsThreeCandidates(
    env: Env, enc: string, loc0: Option<Location>, l1: Location, l2: Location, l3: Location, a: Session, b: Session)
    requires a != b
    requires env.preSign(a, SignView(Some(enc), loc0)).Ok? && env.preSign(a, SignView(Some(enc), loc0)).value.Fail?
    requires !Stops(Attempt(env, a, enc, l1)) && !Stops(Attempt(env, a, enc, l2))
    requires Attempt(env, a, enc, l3) == Ok(Susses)
    requires env.preSign(b, SignView(Some(enc), Some(l3))).Ok? && env.preSign(b, SignView(Some(enc), Some(l3))).value.Fail?
    requires !Stops(Attempt(env, b, enc, l1)) && !Stops(Attempt(env, b, enc, l2)) && !Stops(Attempt(env, b, enc, l3))
    ensures SignSessions(env, [a, b], enc, loc0, [l1, l2, l3], map[]) ==
      Outcome(Ok(map[a := Susses, b := Fail(ALL_LOCATIONS_UNAVAILABLE)]), Some(l3))
  {
    var locs := [l1, l2, l3];
    TryLocationsStopsAtFirst(env, a, enc, loc0, locs, 2);
    assert SessionState(env, a, enc, loc0, locs) == Outcome(Ok(Susses), Some(l3));
    TryLocationsExhausted(env, b, enc, Some(l3), locs);
    assert SessionState(env, b, enc, Some(l3), locs) == Outcome(Ok(Fail(ALL_LOCATIONS_UNAVAILABLE)), Some(l3));
    assert [a, b][1..] == [b] && [b][1..] == [];
    var m: map<Session, SignResult> := map[a := Susses];
    assert SignSessions(env, [b], enc, Some(l3), locs, m) ==
      SignSessions(env, [], enc, Some(l3), locs, m[b := Fail(ALL_LOCATIONS_UNAVAILABLE)]);
    assert SignSessions(env, [a, b], enc, loc0, locs, map[]) == SignSessions(env, [b], enc, Some(l3), locs, m);
  }

  /** The call's result and the token and location it leaves on the sign. */
  datatype Run = Run(result: Result<map<Session, SignResult>, Error>, enc: Option<string>, location: Option<Location>)

  /** The whole of `sign`: candidates, then the token, then the sessions. */
  function SignRun(
    env: Env, cfg: Signner, inner: Activities.RawSign, refresh: bool, sessions: seq<Session>,
    enc0: Option<string>, loc0: Option<Location>): (run: Run)
    requires PathReadable(env, cfg)
    // one entry per session, each a success or "all locations unavailable"
    ensures run.result.Ok? ==> run.result.value.Keys == (set s | s in sessions) && Settled(run.result.value)
    // a failure before the sessions leaves the sign untouched
    ensures Candidates(env, cfg, inner, sessions).Err? ==> run == Run(Err(Candidates(env, cfg, inner, sessions).error), enc0, loc0)
    ensures Candidates(env, cfg, inner, sessions).Ok? && ResolveEnc(env, cfg, refresh).Err? ==>
      run == Run(Err(ResolveEnc(env, cfg, refresh).error), enc0, loc0)
  {
    match Candidates(env, cfg, inner, sessions)
    case Err(e) => Run(Err(e), enc0, loc0)
    case Ok(locs) =>
      match ResolveEnc(env, cfg, refresh)
      case Err(e) => Run(Err(e), enc0, loc0)
      case Ok(enc) =>
        var o := SignSessions(env, sessions, enc, loc0, locs, map[]);
        Run(o.result, Some(enc), o.location)
  }

  /** The whole call fails with the error of a session whose pre-check or trial
      fails after every earlier session succeeded; the sign keeps the token and
      the location that session left. */
  lemma SignRunAbort(
    env: Env, cfg: Signner, inner: Activities.RawSign, refresh: bool, sessions: seq<Session>,
    enc0: Option<string>, loc0: Option<Location>, k: nat)
    requires PathReadable(env, cfg)
    requires Candidates(env, cfg, inner, sessions).Ok? && ResolveEnc(env, cfg, refresh).Ok?
    requires k < |sessions|
    requires var enc, locs := ResolveEnc(env, cfg, refresh).value, Candidates(env, cfg, inner, sessions).value;
      var f := SignSessions(env, sessions[..k], enc, loc0, locs, map[]);
      f.result.Ok? && SessionState(env, sessions[k], enc, f.location, locs).result.Err?
    ensures var enc, locs := ResolveEnc(env, cfg, refresh).value, Candidates(env, cfg, inner, sessions).value;
      var st := SessionState(env, sessions[k], enc, SignSessions(env, sessions[..k], enc, loc0, locs, map[]).location, locs);
      SignRun(env, cfg, inner, refresh, sessions, enc0, loc0) == Run(Err(st.result.error), Some(enc), st.location)
  {
    var enc, locs := ResolveEnc(env, cfg, refresh).value, Candidates(env, cfg, inner, sessions).value;
    SignSessionsAbort(env, sessions, enc, loc0, locs, map[], k);
  }

  /** In a successful call, a session that does not occur again later is mapped
      to the result of its own pre-check and trial with the resolved token and
      candidates, run at the location the earlier sessions left on the sign. */
  lemma SignRunPointwise(
    env: Env, cfg: Signner, inner: Activities.RawSign, refresh: bool, sessions: seq<Session>,
    enc0: Option<string>, loc0: Option<Location>, k: nat)
    requires PathReadable(env, cfg)
    requires k < |sessions| && sessions[k] !in sessions[k + 1..]
    requires SignRun(env, cfg, inner, refresh, sessions, enc0, loc0).result.Ok?
    ensures Candidates(env, cfg, inner, sessions).Ok? && ResolveEnc(env, cfg, refresh).Ok?
    ensures var enc, locs := ResolveEnc(env, cfg, refresh).value, Candidates(env, cfg, inner, sessions).value;
      var f := SignSessions(env, sessions[..k], enc, loc0, locs, map[]);
      var st := SessionState(env, sessions[k], enc, f.location, locs);
      && f.result.Ok? && st.result.Ok?
      && SignRun(env, cfg, inner, refresh, sessions, enc0, loc0).result.value[sessions[k]] == st.result.value
  {
    var enc, locs := ResolveEnc(env, cfg, refresh).value, Candidates(env, cfg, inner, sessions).value;
    SignSessionsPointwise(env, sessions, enc, loc0, locs, map[], k);
  }

  /** The candidate list as `sign` builds it, with `append` and `push`. */
  method CollectCandidates(env: Env, cfg: Signner, inner: Activities.RawSign, sessions: seq<Session>)
    returns (r: Result<seq<Location>, Error>)
    ensures r == Candidates(env, cfg, inner, sessions)
  {
    var resolved := env.resolveLocation(cfg.locationStr);
    if resolved.Ok? {
      return Ok([resolved.value]);
    }
    var fallback := resolved.error;
    var presets: map<string, LocationWithRange> := map[];
    if |sessions| > 0 {
      var fromLog := env.presetsFromLog(sessions[0], inner.course);
      if fromLog.Err? {
        return Err(fromLog.error);
      }
      presets := fromLog.value;
    }
    var preset: Option<Location> := None;
    if inner.activeId in presets {
      var l := presets[inner.activeId];
      preset := Some(if cfg.noRandShift then env.toLocation(l) else env.toShiftedLocation(l));
    }
    assert PresetMap(env, inner.course, sessions) == Ok(presets);
    assert PresetFor(env, cfg, inner, sessions) == preset;
    var locations: seq<Location>;
    if fallback == "" {
      locations := env.locationsByCourse(-1);
      locations := locations + env.locationsByCourse(inner.course.id);
      assert locations + [] == locations;
      if preset.Some? {
        locations := locations + [preset.value];
      }
    } else if preset.Some? {
      locations := [Location(fallback, preset.value.lon, preset.value.lat, preset.value.alt)];
    } else {
      locations := [];
    }
    r := Ok(locations);
  }

  /** The token as `sign` obtains it. */
  method ObtainEnc(env: Env, cfg: Signner, refresh: bool) returns (r: Result<string, Error>)
    requires PathReadable(env, cfg)
    ensures r == ResolveEnc(env, cfg, refresh)
  {
    if cfg.enc.Some? {
      return Ok(cfg.enc.value);
    }
    if cfg.path.None? {
      var captured := env.captureQrCode(refresh, cfg.precisely);
      if captured.None? {
        return Err(EncError(NO_ENC_ON_SCREEN));
      }
      return Ok(captured.value);
    }
    var pic := cfg.path.value;
    if env.isDir(pic).value {
      var chosen := env.picInDir(pic);
      if chosen.Err? {
        return Err(chosen.error);
      }
      if chosen.value.Some? && env.scanQrCode(chosen.value.value).Some? {
        return Ok(env.scanQrCode(chosen.value.value).value);
      }
      return Err(EncError(NO_PICTURE_IN_DIR));
    }
    if env.scanQrCode(pic).Some? {
      return Ok(env.scanQrCode(pic).value);
    }
    r := Err(EncError(NO_ENC_IN_QRCODE));
  }

  /** One session on a sign that carries `enc`: the pre-check, then the
      candidates one by one until one of them ends the trial. */
  method SignOneSession(env: Env, sign: QrCodeSign, session: Session, enc: string, locations: seq<Location>)
    returns (r: Result<SignResult, Error>)
    requires sign.enc == Some(enc)
    modifies sign`location
    ensures Outcome(r, sign.location) == SessionState(env, session, enc, old(sign.location), locations)
  {
    ghost var st := SessionState(env, session, enc, sign.location, locations);
    var pre := env.preSign(session, sign.View());
    if pre.Err? {
      return Err(pre.error);
    }
    if pre.value.Susses? {
      return Ok(Susses);
    }
    var state := Fail(ALL_LOCATIONS_UNAVAILABLE);
    var j := 0;
    while j < |locations|
      invariant 0 <= j <= |locations|
      invariant state == Fail(ALL_LOCATIONS_UNAVAILABLE)
      invariant TryLocations(env, session, enc, sign.location, locations[j..]) == st
    {
      assert locations[j..][0] == locations[j] && locations[j..][1..] == locations[j + 1..];
      sign.SetLocation(locations[j]);
      var res := env.signUnchecked(session, sign.View());
      if res.Err? {
        return Err(res.error);
      }
      if res.value.Susses? || res.value.msg == ALREADY_SIGNED {
        state := Susses;
        break;
      }
      j := j + 1;
    }
    r := Ok(state);
  }

  /** `DefaultQrCodeSignner::sign`. */
  method Sign(env: Env, cfg: Signner, sign: QrCodeSign, sessions: seq<Session>) returns (r: Result<map<Session, SignResult>, Error>)
    requires PathReadable(env, cfg)
    modifies sign
    ensures Run(r, sign.enc, sign.location) ==
      SignRun(env, cfg, sign.inner, sign.refresh, sessions, old(sign.enc), old(sign.location))
  {
    ghost var loc0 := sign.location;
    var candidates := CollectCandidates(env, cfg, sign.inner, sessions);
    if candidates.Err? {
      return Err(candidates.error);
    }
    var locations := candidates.value;
    var resolved := ObtainEnc(env, cfg, sign.refresh);
    if resolved.Err? {
      return Err(resolved.error);
    }
    var enc := resolved.value;
    sign.SetEnc(enc);
    ghost var total := SignSessions(env, sessions, enc, loc0, locations, map[]);
    var m: map<Session, SignResult> := map[];
    var i := 0;
    while i < |sessions|
      invariant 0 <= i <= |sessions|
      invariant sign.enc == Some(enc)
      invariant SignSessions(env, sessions[i..], enc, sign.location, locations, m) == total
    {
      assert sessions[i..][0] == sessions[i] && sessions[i..][1..] == sessions[i + 1..];
      var state := SignOneSession(env, sign, sessions[i], enc, locations);
      if state.Err? {
        return Err(state.error);
      }
      m := m[sessions[i] := state.value];
      i := i + 1;
    }
    r := Ok(m);
  }
}
