/** The activity list of an account: every course's raw activity records are
    turned into check-ins ("signs") or other activities, and the signs are split
    into a valid bucket (sorted) and an invalid bucket.

    The network calls (`Course::get_courses`, `protocol::active_list`,
    `RawSign::get_sign_detail`) are inputs: the course list is passed as the
    call's result, the two per-item calls as functions from their argument to
    their result. `Sign::is_valid` and `Sign`'s ordering are not part of this
    model and are parameters (`isValid`, `before`). */
module Activities {
  import opened Wrappers

  const I64_MIN: int := -0x8000_0000_0000_0000
  const I64_MAX: int := 0x7FFF_FFFF_FFFF_FFFF

  type I64 = x: int | I64_MIN <= x <= I64_MAX
  type U64 = x: int | 0 <= x < 0x1_0000_0000_0000_0000

  /** A transport error of the HTTP client. */
  datatype FetchError = FetchError(reason: string)

  datatype Course = Course(id: int, name: string)

  /** One entry of the `activeList` array of the activity page. */
  datatype ActivityRaw = ActivityRaw(nameOne: string, id: I64, otherId: Option<string>, status: int, startTime: U64)

  datatype Data = Data(activeList: seq<ActivityRaw>)

  /** The decoded activity page; `data` is absent when the course has none. */
  datatype GetActivityR = GetActivityR(data: Option<Data>)

  /** The signature-detail blob, opaque to this model. */
  datatype SignDetail = SignDetail(blob: string)

  datatype RawSign = RawSign(
    activeId: string,
    name: string,
    course: Course,
    otherId: string,
    statusCode: int,
    startTimestamp: int,
    signDetail: SignDetail)

  datatype OtherActivity = OtherActivity(id: string, name: string, course: Course, status: int, startTimeSecs: int)

  datatype Activity = Sign(sign: RawSign) | Other(other: OtherActivity)

  // ---------------------------------------------------------------------------
  // Decimal text of integers: `i64::to_string` and `str::parse::<i64>`
  // ---------------------------------------------------------------------------

  predicate IsDigit(c: char) {
    '0' <= c <= '9'
  }

  predicate AllDigits(s: string) {
    forall i :: 0 <= i < |s| ==> IsDigit(s[i])
  }

  function DigitChar(d: nat): char
    requires d < 10
  {
    ('0' as int + d) as char
  }

  /** The value of a string of decimal digits, most significant first. */
  function DigitsValue(s: string): nat
    requires AllDigits(s)
  {
    if s == [] then 0 else 10 * DigitsValue(s[..|s| - 1]) + (s[|s| - 1] as int - '0' as int)
  }

  /** Decimal text of a natural number: digits whose value is `n`, without
      leading zeros. */
  function NatToString(n: nat): string
  {
    if n < 10 then [DigitChar(n)] else NatToString(n / 10) + [DigitChar(n % 10)]
  }

  lemma {:induction false} NatToStringDigits(n: nat)
    ensures var s := NatToString(n);
      |s| > 0 && AllDigits(s) && DigitsValue(s) == n && (s[0] == '0' ==> n == 0)
  {
    if n >= 10 {
      NatToStringDigits(n / 10);
      var s := NatToString(n);
      assert s[..|s| - 1] == NatToString(n / 10);
    }
  }

  /** `to_string` of an integer: a minus sign for negative values. */
  function IntToString(n: int): string
  {
    if n < 0 then "-" + NatToString(-n) else NatToString(n)
  }

  /** The text of an integer is a minus sign exactly for negative values, then
      the digits of its magnitude, without leading zeros. */
  lemma IntToStringDigits(n: int)
    ensures var s := IntToString(n);
      && |s| > 0 && (s[0] == '-' <==> n < 0)
      && (n < 0 ==> AllDigits(s[1..]) && DigitsValue(s[1..]) == -n && s[1] != '0')
      && (n >= 0 ==> AllDigits(s) && DigitsValue(s) == n && (s[0] == '0' ==> n == 0))
  {
    if n < 0 {
      NatToStringDigits(-n);
      assert ("-" + NatToString(-n))[1..] == NatToString(-n);
    } else {
      NatToStringDigits(n);
    }
  }

  /** `parse::<i64>()`: an optional `+` or `-`, then at least one decimal digit,
      and a value that fits in 64 signed bits; anything else is an error. */
  function ParseI64(s: string): (r: Option<int>)
    ensures r.Some? ==> I64_MIN <= r.value <= I64_MAX
    ensures r.Some? ==> s != [] && (r.value < 0 ==> s[0] == '-')
  {
    if s == [] then None
    else
      var digits := if s[0] == '-' || s[0] == '+' then s[1..] else s;
      if digits == [] || !AllDigits(digits) then None
      else
        var v: int := if s[0] == '-' then -(DigitsValue(digits) as int) else DigitsValue(digits);
        if I64_MIN <= v <= I64_MAX then Some(v) else None
  }

  /** Text made of an optional `+` or `-` and at least one digit parses to its
      signed value when that fits in 64 signed bits, and is refused otherwise;
      leading zeros and an explicit `+` are accepted. */
  lemma ParseI64Accepts(sign: string, digits: string)
    requires sign == "" || sign == "+" || sign == "-"
    requires digits != [] && AllDigits(digits)
    ensures var v := if sign == "-" then -(DigitsValue(digits) as int) else DigitsValue(digits) as int;
      ParseI64(sign + digits) == if I64_MIN <= v <= I64_MAX then Some(v) else None
  {
    var s := sign + digits;
    if sign == "" {
      assert s == digits && IsDigit(s[0]);
    } else {
      assert s[0] == sign[0] && s[1..] == digits;
    }
  }

  /** Only that form is accepted: whatever parses is a digit string, or a sign
      followed by a non-empty digit string, and its value is that of the digits. */
  lemma ParseI64Shape(s: string)
    requires ParseI64(s).Some?
    ensures IsDigit(s[0]) ==> AllDigits(s) && ParseI64(s).value == DigitsValue(s)
    ensures !IsDigit(s[0]) ==>
      && (s[0] == '+' || s[0] == '-') && |s| > 1 && AllDigits(s[1..])
      && ParseI64(s).value == if s[0] == '-' then -(DigitsValue(s[1..]) as int) else DigitsValue(s[1..]) as int
  {
  }

  /** An activity id written by `to_string` parses back to the same id. */
  lemma IdRoundTrip(n: I64)
    ensures ParseI64(IntToString(n)) == Some(n)
  {
    IntToStringDigits(n);
    var s := IntToString(n);
    if n >= 0 {
      assert IsDigit(s[0]);
    }
  }

  // ---------------------------------------------------------------------------
  // One record (crates/activity/src/lib.rs:47-74)
  // ---------------------------------------------------------------------------

  /** A record is a check-in when `other_id` is present and parses to 0..=5. */
  predicate IsSignRecord(ar: ActivityRaw) {
    ar.otherId.Some? && ParseI64(ar.otherId.value).Some? && 0 <= ParseI64(ar.otherId.value).value <= 5
  }

  /** The source unwraps the parse of a present `other_id`: any other text panics. */
  predicate Parsable(ar: ActivityRaw) {
    ar.otherId.Some? ==> ParseI64(ar.otherId.value).Some?
  }

  predicate AllParsable(ars: seq<ActivityRaw>) {
    forall k :: 0 <= k < |ars| ==> Parsable(ars[k])
  }

  function ActivityId(a: Activity): string {
    match a
    case Sign(s) => s.activeId
    case Other(o) => o.id
  }

  function ActivityName(a: Activity): string {
    match a
    case Sign(s) => s.name
    case Other(o) => o.name
  }

  function ActivityCourse(a: Activity): Course {
    match a
    case Sign(s) => s.course
    case Other(o) => o.course
  }

  function ActivityStartSecs(a: Activity): int {
    match a
    case Sign(s) => s.startTimestamp
    case Other(o) => o.startTimeSecs
  }

  /** What one record of course `c` becomes; `detail` is the signature-detail
      request, made only for check-ins. */
  function ToActivity(c: Course, ar: ActivityRaw, detail: string -> Result<SignDetail, FetchError>): (r: Result<Activity, FetchError>)
    requires Parsable(ar)
    ensures r.Ok? ==> (r.value.Sign? <==> IsSignRecord(ar))
    ensures r.Err? <==> IsSignRecord(ar) && detail(IntToString(ar.id)).Err?
    ensures r.Err? ==> r.error == detail(IntToString(ar.id)).error
    ensures r.Ok? ==> ActivityId(r.value) == IntToString(ar.id) && ActivityName(r.value) == ar.nameOne
    ensures r.Ok? ==> ActivityCourse(r.value) == c && ActivityStartSecs(r.value) == ar.startTime / 1000 <= I64_MAX
    ensures r.Ok? && r.value.Sign? ==> r.value.sign.otherId == ar.otherId.value && r.value.sign.statusCode == ar.status
    // a check-in carries the detail its request returned; an other activity keeps the record's status
    ensures r.Ok? && r.value.Sign? ==> r.value.sign.signDetail == detail(IntToString(ar.id)).value
    ensures r.Ok? && r.value.Other? ==> r.value.other.status == ar.status
  {
    var id := IntToString(ar.id);
    if IsSignRecord(ar) then
      match detail(id)
      case Err(e) => Err(e)
      case Ok(d) => Ok(Sign(RawSign(id, ar.nameOne, c, ar.otherId.value, ar.status, ar.startTime / 1000, d)))
    else
      Ok(Other(OtherActivity(id, ar.nameOne, c, ar.status, ar.startTime / 1000)))
  }

  /** The records of one page in order; the first failing detail request aborts. */
  function Collect(c: Course, ars: seq<ActivityRaw>, detail: string -> Result<SignDetail, FetchError>): (r: Result<seq<Activity>, FetchError>)
    requires AllParsable(ars)
    ensures r.Ok? ==> |r.value| == |ars|
  {
    if ars == [] then Ok([])
    else
      match Collect(c, ars[..|ars| - 1], detail)
      case Err(e) => Err(e)
      case Ok(acts) =>
        match ToActivity(c, ars[|ars| - 1], detail)
        case Err(e) => Err(e)
        case Ok(a) => Ok(acts + [a])
  }

  /** A page succeeds exactly when each of its records does, and record k
      then becomes activity k of the list. */
  lemma CollectPointwise(c: Course, ars: seq<ActivityRaw>, detail: string -> Result<SignDetail, FetchError>)
    requires AllParsable(ars)
    ensures Collect(c, ars, detail).Ok? <==> forall k :: 0 <= k < |ars| ==> ToActivity(c, ars[k], detail).Ok?
    ensures Collect(c, ars, detail).Ok? ==>
      forall k :: 0 <= k < |ars| ==> Collect(c, ars, detail).value[k] == ToActivity(c, ars[k], detail).value
  {
    CollectOk(c, ars, detail);
    if Collect(c, ars, detail).Ok? {
      CollectValues(c, ars, detail);
    }
  }

  lemma {:induction false} CollectOk(c: Course, ars: seq<ActivityRaw>, detail: string -> Result<SignDetail, FetchError>)
    requires AllParsable(ars)
    ensures Collect(c, ars, detail).Ok? <==> forall k :: 0 <= k < |ars| ==> ToActivity(c, ars[k], detail).Ok?
  {
    if ars != [] {
      var n := |ars| - 1;
      var front := ars[..n];
      assert forall k :: 0 <= k < n ==> front[k] == ars[k];
      assert AllParsable(front);
      CollectOk(c, front, detail);
      if Collect(c, ars, detail).Ok? {
        assert Collect(c, front, detail).Ok? && ToActivity(c, ars[n], detail).Ok?;
        forall k | 0 <= k < |ars| ensures ToActivity(c, ars[k], detail).Ok? {
          if k < n {
            assert front[k] == ars[k];
          }
        }
      } else if Collect(c, front, detail).Err? {
        var k :| 0 <= k < n && ToActivity(c, front[k], detail).Err?;
        assert front[k] == ars[k];
      }
    }
  }

  lemma {:induction false} CollectValues(c: Course, ars: seq<ActivityRaw>, detail: string -> Result<SignDetail, FetchError>)
    requires AllParsable(ars) && Collect(c, ars, detail).Ok?
    requires forall k :: 0 <= k < |ars| ==> ToActivity(c, ars[k], detail).Ok?
    ensures forall k :: 0 <= k < |ars| ==> Collect(c, ars, detail).value[k] == ToActivity(c, ars[k], detail).value
  {
    if ars != [] {
      var n := |ars| - 1;
      var front := ars[..n];
      assert forall k :: 0 <= k < n ==> front[k] == ars[k];
      CollectValues(c, front, detail);
      var whole, part := Collect(c, ars, detail).value, Collect(c, front, detail).value;
      assert whole == part + [ToActivity(c, ars[n], detail).value];
      assert forall k :: 0 <= k < n ==> whole[k] == part[k];
    }
  }

  /** The error of a failed page is that of its first failing record. */
  lemma {:induction false} CollectFirstError(c: Course, ars: seq<ActivityRaw>, detail: string -> Result<SignDetail, FetchError>)
    requires AllParsable(ars)
    requires Collect(c, ars, detail).Err?
    ensures exists k ::
              && 0 <= k < |ars|
              && ToActivity(c, ars[k], detail) == Err(Collect(c, ars, detail).error)
              && (forall j :: 0 <= j < k ==> ToActivity(c, ars[j], detail).Ok?)
  {
    var n := |ars| - 1;
    var front := ars[..n];
    assert forall k :: 0 <= k < n ==> front[k] == ars[k];
    if Collect(c, front, detail).Err? {
      CollectFirstError(c, front, detail);
      var k :| 0 <= k < n && ToActivity(c, front[k], detail) == Err(Collect(c, front, detail).error) &&
        (forall j :: 0 <= j < k ==> ToActivity(c, front[j], detail).Ok?);
      assert ToActivity(c, ars[k], detail) == Err(Collect(c, ars, detail).error);
    } else {
      CollectPointwise(c, front, detail);
      assert ToActivity(c, ars[n], detail) == Err(Collect(c, ars, detail).error);
    }
  }

  /** Once a prefix of the page fails, the whole page fails with that error. */
  lemma {:induction false} CollectAbort(c: Course, ars: seq<ActivityRaw>, detail: string -> Result<SignDetail, FetchError>, n: nat)
    requires n <= |ars| && AllParsable(ars)
    requires Collect(c, ars[..n], detail).Err?
    ensures Collect(c, ars, detail) == Collect(c, ars[..n], detail)
    decreases |ars| - n
  {
    if n < |ars| {
      assert ars[..n + 1][..n] == ars[..n];
      CollectAbort(c, ars, detail, n + 1);
    } else {
      assert ars[..n] == ars;
    }
  }

  predicate ResponseParsable(fetched: Result<GetActivityR, FetchError>) {
    fetched.Ok? && fetched.value.data.Some? ==> AllParsable(fetched.value.data.value.activeList)
  }

  /** The activity list of course `c` (crates/activity/src/lib.rs:42-78). */
  function CourseActivities(
    c: Course,
    activeList: Course -> Result<GetActivityR, FetchError>,
    detail: string -> Result<SignDetail, FetchError>): (r: Result<seq<Activity>, FetchError>)
    requires ResponseParsable(activeList(c))
    ensures activeList(c).Err? ==> r == Err(activeList(c).error)
    ensures activeList(c).Ok? && activeList(c).value.data.None? ==> r == Ok([])
    // a page with data is its records, collected
    ensures activeList(c).Ok? && activeList(c).value.data.Some? ==> r == Collect(c, activeList(c).value.data.value.activeList, detail)
  {
    match activeList(c)
    case Err(e) => Err(e)
    case Ok(resp) =>
      match resp.data
      case None => Ok([])
      case Some(d) => Collect(c, d.activeList, detail)
  }

  /** The body of the record loop: a check-in fetches its detail, anything
      else becomes an other activity. */
  method ConvertRecord(c: Course, ar: ActivityRaw, detail: string -> Result<SignDetail, FetchError>)
    returns (r: Result<Activity, FetchError>)
    requires Parsable(ar)
    ensures r == ToActivity(c, ar, detail)
  {
    var id := IntToString(ar.id);
    if ar.otherId.Some? && 0 <= ParseI64(ar.otherId.value).value <= 5 {
      var d := detail(id);
      if d.Err? {
        return Err(d.error);
      }
      r := Ok(Sign(RawSign(id, ar.nameOne, c, ar.otherId.value, ar.status, ar.startTime / 1000, d.value)));
    } else {
      r := Ok(Other(OtherActivity(id, ar.nameOne, c, ar.status, ar.startTime / 1000)));
    }
  }

  /** `get_list_from_course`: fetch the page, then walk its records pushing one
      activity each; a failed request returns its error. */
  method GetListFromCourse(
    c: Course,
    activeList: Course -> Result<GetActivityR, FetchError>,
    detail: string -> Result<SignDetail, FetchError>) returns (r: Result<seq<Activity>, FetchError>)
    requires ResponseParsable(activeList(c))
    ensures r == CourseActivities(c, activeList, detail)
  {
    var fetched := activeList(c);
    if fetched.Err? {
      return Err(fetched.error);
    }
    var activities: seq<Activity> := [];
    if fetched.value.data.Some? {
      var list := fetched.value.data.value.activeList;
      var i := 0;
      while i < |list|
        invariant 0 <= i <= |list|
        invariant Collect(c, list[..i], detail) == Ok(activities)
      {
        assert list[..i + 1] == list[..i] + [list[i]];
        assert list[..i + 1][..i] == list[..i];
        var a := ConvertRecord(c, list[i], detail);
        if a.Err? {
          CollectAbort(c, list, detail, i + 1);
          return Err(a.error);
        }
        activities := activities + [a.value];
        i := i + 1;
      }
      assert list[..|list|] == list;
    }
    r := Ok(activities);
  }

  // ---------------------------------------------------------------------------
  // All courses (crates/activity/src/lib.rs:18-41)
  // ---------------------------------------------------------------------------

  predicate CoursesParsable(cs: seq<Course>, activeList: Course -> Result<GetActivityR, FetchError>) {
    forall k :: 0 <= k < |cs| ==> ResponseParsable(activeList(cs[k]))
  }

  /** The activities of all courses, course by course; the first error aborts. */
  function AllActivities(
    cs: seq<Course>,
    activeList: Course -> Result<GetActivityR, FetchError>,
    detail: string -> Result<SignDetail, FetchError>): (r: Result<seq<Activity>, FetchError>)
    requires CoursesParsable(cs, activeList)
    // an error is the error of one of the courses
    ensures r.Err? ==> exists k :: 0 <= k < |cs| && CourseActivities(cs[k], activeList, detail) == Err(r.error)
  {
    if cs == [] then Ok([])
    else
      match AllActivities(cs[..|cs| - 1], activeList, detail)
      case Err(e) => Err(e)
      case Ok(acts) =>
        match CourseActivities(cs[|cs| - 1], activeList, detail)
        case Err(e) => Err(e)
        case Ok(more) => Ok(acts + more)
  }

  /** The valid check-ins of `acts`, in encounter order. */
  function ValidSigns(acts: seq<Activity>, isValid: RawSign -> bool): (r: seq<RawSign>)
    ensures forall k :: 0 <= k < |r| ==> isValid(r[k])
  {
    if acts == [] then []
    else
      var a := acts[|acts| - 1];
      ValidSigns(acts[..|acts| - 1], isValid) + if a.Sign? && isValid(a.sign) then [a.sign] else []
  }

  /** The check-ins of `acts` that are not valid, in encounter order. */
  function InvalidSigns(acts: seq<Activity>, isValid: RawSign -> bool): (r: seq<RawSign>)
    ensures forall k :: 0 <= k < |r| ==> !isValid(r[k])
  {
    if acts == [] then []
    else
      var a := acts[|acts| - 1];
      InvalidSigns(acts[..|acts| - 1], isValid) + if a.Sign? && !isValid(a.sign) then [a.sign] else []
  }

  /** The activities of `acts` that are not check-ins, in encounter order. */
  function Others(acts: seq<Activity>): (r: seq<OtherActivity>)
    ensures |r| <= |acts|
  {
    if acts == [] then []
    else
      var a := acts[|acts| - 1];
      Others(acts[..|acts| - 1]) + if a.Other? then [a.other] else []
  }

  function AsSigns(s: seq<RawSign>): seq<Activity> {
    if s == [] then [] else AsSigns(s[..|s| - 1]) + [Sign(s[|s| - 1])]
  }

  function AsOthers(s: seq<OtherActivity>): seq<Activity> {
    if s == [] then [] else AsOthers(s[..|s| - 1]) + [Other(s[|s| - 1])]
  }

  lemma {:induction false} AsSignsAppend(s: seq<RawSign>, t: seq<RawSign>)
    ensures AsSigns(s + t) == AsSigns(s) + AsSigns(t)
    decreases |t|
  {
    if t != [] {
      var n := |t| - 1;
      assert (s + t)[..|s + t| - 1] == s + t[..n];
      AsSignsAppend(s, t[..n]);
    } else {
      assert s + t == s;
    }
  }

  lemma {:induction false} AsOthersAppend(s: seq<OtherActivity>, t: seq<OtherActivity>)
    ensures AsOthers(s + t) == AsOthers(s) + AsOthers(t)
    decreases |t|
  {
    if t != [] {
      var n := |t| - 1;
      assert (s + t)[..|s + t| - 1] == s + t[..n];
      AsOthersAppend(s, t[..n]);
    } else {
      assert s + t == s;
    }
  }

  /** Every activity lands in exactly one of the three buckets: as multisets,
      the three buckets together are the activities. */
  lemma {:induction false} BucketsPartition(acts: seq<Activity>, isValid: RawSign -> bool)
    ensures |ValidSigns(acts, isValid)| + |InvalidSigns(acts, isValid)| + |Others(acts)| == |acts|
    ensures multiset(AsSigns(ValidSigns(acts, isValid))) + multiset(AsSigns(InvalidSigns(acts, isValid)))
      + multiset(AsOthers(Others(acts))) == multiset(acts)
  {
    if acts != [] {
      var n := |acts| - 1;
      var front, a := acts[..n], acts[n];
      assert acts == front + [a];
      BucketsPartition(front, isValid);
      BucketsStep(front, a, isValid);
    }
  }

  lemma BucketsSnoc(front: seq<Activity>, a: Activity, isValid: RawSign -> bool)
    ensures ValidSigns(front + [a], isValid) == ValidSigns(front, isValid) + if a.Sign? && isValid(a.sign) then [a.sign] else []
    ensures InvalidSigns(front + [a], isValid) == InvalidSigns(front, isValid) + if a.Sign? && !isValid(a.sign) then [a.sign] else []
    ensures Others(front + [a]) == Others(front) + if a.Other? then [a.other] else []
  {
    assert (front + [a])[..|front|] == front;
  }

  /** One more activity adds itself to exactly one bucket. */
  lemma BucketsStep(front: seq<Activity>, a: Activity, isValid: RawSign -> bool)
    ensures |ValidSigns(front + [a], isValid)| + |InvalidSigns(front + [a], isValid)| + |Others(front + [a])|
      == |ValidSigns(front, isValid)| + |InvalidSigns(front, isValid)| + |Others(front)| + 1
    ensures multiset(AsSigns(ValidSigns(front + [a], isValid))) + multiset(AsSigns(InvalidSigns(front + [a], isValid)))
      + multiset(AsOthers(Others(front + [a])))
      == multiset(AsSigns(ValidSigns(front, isValid))) + multiset(AsSigns(InvalidSigns(front, isValid)))
      + multiset(AsOthers(Others(front))) + multiset{a}
  {
    var acts := front + [a];
    assert acts[..|acts| - 1] == front;
    var v := if a.Sign? && isValid(a.sign) then [a.sign] else [];
    var i := if a.Sign? && !isValid(a.sign) then [a.sign] else [];
    var o := if a.Other? then [a.other] else [];
    BucketsSnoc(front, a, isValid);
    AsSignsAppend(ValidSigns(front, isValid), v);
    AsSignsAppend(InvalidSigns(front, isValid), i);
    AsOthersAppend(Others(front), o);
    var mv, mi, mo := multiset(AsSigns(v)), multiset(AsSigns(i)), multiset(AsOthers(o));
    OneBucket(a, isValid);
    assert multiset(AsSigns(ValidSigns(acts, isValid))) == multiset(AsSigns(ValidSigns(front, isValid))) + mv;
    assert multiset(AsSigns(InvalidSigns(acts, isValid))) == multiset(AsSigns(InvalidSigns(front, isValid))) + mi;
    assert multiset(AsOthers(Others(acts))) == multiset(AsOthers(Others(front))) + mo;
    MultisetRegroup(multiset(AsSigns(ValidSigns(front, isValid))), multiset(AsSigns(InvalidSigns(front, isValid))),
      multiset(AsOthers(Others(front))), mv, mi, mo);
  }

  /** An activity alone fills exactly one bucket. */
  lemma OneBucket(a: Activity, isValid: RawSign -> bool)
    ensures
      var v := if a.Sign? && isValid(a.sign) then [a.sign] else [];
      var i := if a.Sign? && !isValid(a.sign) then [a.sign] else [];
      var o := if a.Other? then [a.other] else [];
      multiset(AsSigns(v)) + multiset(AsSigns(i)) + multiset(AsOthers(o)) == multiset{a}
  {
    assert AsSigns([]) == [] && AsOthers([]) == [];
    match a
    case Sign(x) =>
      assert AsSigns([x]) == [a];
    case Other(x) =>
      assert AsOthers([x]) == [a];
  }

  lemma MultisetRegroup<T>(a: multiset<T>, b: multiset<T>, c: multiset<T>, x: multiset<T>, y: multiset<T>, z: multiset<T>)
    ensures (a + x) + (b + y) + (c + z) == (a + b + c) + (x + y + z)
  {
  }

  // ---------------------------------------------------------------------------
  // Sorting the valid bucket (`Vec::sort` with `Sign`'s ordering)
  // ---------------------------------------------------------------------------

  /** `before(a, b)`: `a <= b` in `Sign`'s ordering, a total preorder. */
  ghost predicate TotalPreorder(before: (RawSign, RawSign) -> bool) {
    && (forall a, b :: before(a, b) || before(b, a))
    && (forall a, b, c :: before(a, b) && before(b, c) ==> before(a, c))
  }

  predicate SortedBy(s: seq<RawSign>, before: (RawSign, RawSign) -> bool) {
    forall i, j :: 0 <= i < j < |s| ==> before(s[i], s[j])
  }

  /** Puts `x` after every element not greater than it. */
  method InsertSorted(t: seq<RawSign>, x: RawSign, before: (RawSign, RawSign) -> bool) returns (u: seq<RawSign>)
    requires TotalPreorder(before) && SortedBy(t, before)
    ensures SortedBy(u, before)
    ensures multiset(u) == multiset(t) + multiset{x}
  {
    var k := 0;
    while k < |t| && before(t[k], x)
      invariant 0 <= k <= |t|
      invariant forall m :: 0 <= m < k ==> before(t[m], x)
    {
      k := k + 1;
    }
    u := t[..k] + [x] + t[k..];
    assert t == t[..k] + t[k..];
    forall i, j | 0 <= i < j < |u|
      ensures before(u[i], u[j])
    {
      InsertedPair(t, x, k, before, i, j);
    }
  }

  /** One pair of positions of `t` with `x` inserted at `k`, where everything
      before `k` is not greater than `x` and `t[k]`, if any, is not below it. */
  lemma InsertedPair(t: seq<RawSign>, x: RawSign, k: nat, before: (RawSign, RawSign) -> bool, i: nat, j: nat)
    requires TotalPreorder(before) && SortedBy(t, before)
    requires k <= |t| && (forall m :: 0 <= m < k ==> before(t[m], x)) && (k < |t| ==> !before(t[k], x))
    requires i < j < |t| + 1
    ensures var u := t[..k] + [x] + t[k..]; before(u[i], u[j])
  {
    var u := t[..k] + [x] + t[k..];
    if j == k {
      assert u[i] == t[i] && u[j] == x;
    } else if i == k {
      assert u[i] == x && u[j] == t[j - 1];
      assert before(x, t[k]);
      if j - 1 > k {
        assert before(t[k], t[j - 1]);
      }
    } else if j < k {
      assert u[i] == t[i] && u[j] == t[j];
    } else if i < k {
      assert u[i] == t[i] && u[j] == t[j - 1];
    } else {
      assert u[i] == t[i - 1] && u[j] == t[j - 1];
    }
  }

  /** Sorts the valid check-ins; the result is ordered and a permutation. */
  method SortSigns(s: seq<RawSign>, before: (RawSign, RawSign) -> bool) returns (t: seq<RawSign>)
    requires TotalPreorder(before)
    ensures SortedBy(t, before)
    ensures multiset(t) == multiset(s)
  {
    t := [];
    var i := 0;
    while i < |s|
      invariant 0 <= i <= |s|
      invariant SortedBy(t, before)
      invariant multiset(t) == multiset(s[..i])
    {
      assert s[..i + 1] == s[..i] + [s[i]];
      t := InsertSorted(t, s[i], before);
      i := i + 1;
    }
    assert s[..|s|] == s;
  }

  /** `get_all_activities`: every course's activities are bucketed into valid
      check-ins, invalid check-ins and other activities, in encounter order; the
      valid bucket is then sorted. Any fetch error aborts with that error. */
  method GetAllActivities(
    courses: Result<seq<Course>, FetchError>,
    activeList: Course -> Result<GetActivityR, FetchError>,
    detail: string -> Result<SignDetail, FetchError>,
    isValid: RawSign -> bool,
    before: (RawSign, RawSign) -> bool) returns (r: Result<(seq<RawSign>, seq<RawSign>, seq<OtherActivity>), FetchError>)
    requires courses.Ok? ==> CoursesParsable(courses.value, activeList)
    requires TotalPreorder(before)
    ensures courses.Err? ==> r == Err(courses.error)
    ensures courses.Ok? && AllActivities(courses.value, activeList, detail).Err? ==>
      r == Err(AllActivities(courses.value, activeList, detail).error)
    ensures courses.Ok? && AllActivities(courses.value, activeList, detail).Ok? ==>
      var acts := AllActivities(courses.value, activeList, detail).value;
      && r.Ok?
      && SortedBy(r.value.0, before)
      && multiset(r.value.0) == multiset(ValidSigns(acts, isValid))
      && r.value.1 == InvalidSigns(acts, isValid)
      && r.value.2 == Others(acts)
  {
    if courses.Err? {
      return Err(courses.error);
    }
    var cs := courses.value;
    var valid: seq<RawSign> := [];
    var invalid: seq<RawSign> := [];
    var others: seq<OtherActivity> := [];
    ghost var acts: seq<Activity> := [];
    var i := 0;
    while i < |cs|
      invariant 0 <= i <= |cs|
      invariant AllActivities(cs[..i], activeList, detail) == Ok(acts)
      invariant valid == ValidSigns(acts, isValid)
      invariant invalid == InvalidSigns(acts, isValid)
      invariant others == Others(acts)
    {
      assert cs[..i + 1][..i] == cs[..i];
      var item := GetListFromCourse(cs[i], activeList, detail);
      if item.Err? {
        assert AllActivities(cs[..i + 1], activeList, detail) == Err(item.error);
        AllActivitiesAbort(cs, activeList, detail, i + 1);
        return Err(item.error);
      }
      var list := item.value;
      valid, invalid, others := PushActivities(acts, list, valid, invalid, others, isValid);
      acts := acts + list;
      i := i + 1;
    }
    assert cs[..|cs|] == cs;
    valid := SortSigns(valid, before);
    r := Ok((valid, invalid, others));
  }

  /** One activity pushed onto its bucket. */
  method PushOne(
    ghost front: seq<Activity>,
    a: Activity,
    valid0: seq<RawSign>,
    invalid0: seq<RawSign>,
    others0: seq<OtherActivity>,
    isValid: RawSign -> bool) returns (valid: seq<RawSign>, invalid: seq<RawSign>, others: seq<OtherActivity>)
    requires valid0 == ValidSigns(front, isValid)
    requires invalid0 == InvalidSigns(front, isValid)
    requires others0 == Others(front)
    ensures valid == ValidSigns(front + [a], isValid)
    ensures invalid == InvalidSigns(front + [a], isValid)
    ensures others == Others(front + [a])
  {
    BucketsSnoc(front, a, isValid);
    valid, invalid, others := valid0, invalid0, others0;
    match a {
      case Sign(s) =>
        if isValid(s) {
          valid := valid + [s];
        } else {
          invalid := invalid + [s];
        }
      case Other(o) =>
        others := others + [o];
    }
  }

  /** The inner loop of `get_all_activities`: pushes each activity of one
      course onto its bucket. */
  method PushActivities(
    ghost acts: seq<Activity>,
    list: seq<Activity>,
    valid0: seq<RawSign>,
    invalid0: seq<RawSign>,
    others0: seq<OtherActivity>,
    isValid: RawSign -> bool) returns (valid: seq<RawSign>, invalid: seq<RawSign>, others: seq<OtherActivity>)
    requires valid0 == ValidSigns(acts, isValid)
    requires invalid0 == InvalidSigns(acts, isValid)
    requires others0 == Others(acts)
    ensures valid == ValidSigns(acts + list, isValid)
    ensures invalid == InvalidSigns(acts + list, isValid)
    ensures others == Others(acts + list)
  {
    valid, invalid, others := valid0, invalid0, others0;
    var j := 0;
    assert acts + list[..0] == acts;
    while j < |list|
      invariant 0 <= j <= |list|
      invariant valid == ValidSigns(acts + list[..j], isValid)
      invariant invalid == InvalidSigns(acts + list[..j], isValid)
      invariant others == Others(acts + list[..j])
    {
      assert list[..j + 1] == list[..j] + [list[j]];
      assert acts + list[..j + 1] == (acts + list[..j]) + [list[j]];
      valid, invalid, others := PushOne(acts + list[..j], list[j], valid, invalid, others, isValid);
      j := j + 1;
    }
    assert list[..|list|] == list;
  }

  /** Once a prefix of the courses fails, the whole list fails with that error. */
  lemma {:induction false} AllActivitiesAbort(
    cs: seq<Course>,
    activeList: Course -> Result<GetActivityR, FetchError>,
    detail: string -> Result<SignDetail, FetchError>,
    n: nat)
    requires n <= |cs| && CoursesParsable(cs, activeList)
    requires AllActivities(cs[..n], activeList, detail).Err?
    ensures AllActivities(cs, activeList, detail) == AllActivities(cs[..n], activeList, detail)
    decreases |cs| - n
  {
    if n < |cs| {
      assert cs[..n + 1][..n] == cs[..n];
      AllActivitiesAbort(cs, activeList, detail, n + 1);
    } else {
      assert cs[..n] == cs;
    }
  }

  /** The listing succeeds exactly when every course's activity list does. */
  lemma {:induction false} AllActivitiesOk(
    cs: seq<Course>,
    activeList: Course -> Result<GetActivityR, FetchError>,
    detail: string -> Result<SignDetail, FetchError>)
    requires CoursesParsable(cs, activeList)
    ensures AllActivities(cs, activeList, detail).Ok? <==>
      forall k :: 0 <= k < |cs| ==> CourseActivities(cs[k], activeList, detail).Ok?
  {
    if cs != [] {
      var n := |cs| - 1;
      var front := cs[..n];
      assert forall k :: 0 <= k < n ==> front[k] == cs[k];
      AllActivitiesOk(front, activeList, detail);
      if AllActivities(cs, activeList, detail).Ok? {
        assert AllActivities(front, activeList, detail).Ok? && CourseActivities(cs[n], activeList, detail).Ok?;
      } else if AllActivities(front, activeList, detail).Err? {
        var k :| 0 <= k < n && CourseActivities(front[k], activeList, detail).Err?;
        assert cs[k] == front[k];
      }
    }
  }

  /** A failed listing carries the error of its first failing course, every
      earlier course having been listed. */
  lemma {:induction false} AllActivitiesFirstError(
    cs: seq<Course>,
    activeList: Course -> Result<GetActivityR, FetchError>,
    detail: string -> Result<SignDetail, FetchError>)
    requires CoursesParsable(cs, activeList)
    requires AllActivities(cs, activeList, detail).Err?
    ensures exists k ::
              && 0 <= k < |cs|
              && CourseActivities(cs[k], activeList, detail) == Err(AllActivities(cs, activeList, detail).error)
              && (forall j :: 0 <= j < k ==> CourseActivities(cs[j], activeList, detail).Ok?)
  {
    var n := |cs| - 1;
    var front := cs[..n];
    assert forall k :: 0 <= k < n ==> front[k] == cs[k];
    if AllActivities(front, activeList, detail).Err? {
      AllActivitiesFirstError(front, activeList, detail);
      var k :| 0 <= k < n && CourseActivities(front[k], activeList, detail) == Err(AllActivities(front, activeList, detail).error) &&
        (forall j :: 0 <= j < k ==> CourseActivities(front[j], activeList, detail).Ok?);
      assert CourseActivities(cs[k], activeList, detail) == Err(AllActivities(cs, activeList, detail).error);
    } else {
      AllActivitiesOk(front, activeList, detail);
      assert CourseActivities(cs[n], activeList, detail) == Err(AllActivities(cs, activeList, detail).error);
    }
  }
}
