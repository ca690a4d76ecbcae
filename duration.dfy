/** Duration handling: `iso8601_to_seconds` and `classify_type`.
    The ISO 8601 parser (`isodate.parse_duration(...).total_seconds()`) is a
    parameter: it yields the total seconds, or None where it raises. */
module Duration {
  import opened Types

  /** Python's `int()` on a float: truncation toward zero. */
  function TruncateTowardZero(x: real): (n: int)
    ensures 0.0 <= x ==> 0 <= n && n as real <= x < n as real + 1.0
    ensures x < 0.0 ==> n <= 0 && n as real - 1.0 < x <= n as real
  {
    if x >= 0.0 then x.Floor else -((-x).Floor)
  }

  /** `iso8601_to_seconds`: total, never raises. None for a missing or empty
      duration and for text the parser rejects; otherwise the parsed total
      seconds with the fraction dropped. */
  function Iso8601ToSeconds(parse: string -> Option<real>, duration: Option<string>): (r: Option<int>)
    ensures !Truthy(duration) ==> r == None
    ensures r.Some? <==> Truthy(duration) && parse(duration.value).Some?
    ensures r.Some? ==>
      var x := parse(duration.value).value;
      -1.0 < x - r.value as real < 1.0
      && (0.0 <= x ==> 0.0 <= r.value as real <= x)
      && (x < 0.0 ==> x <= r.value as real <= 0.0)
  {
    if !Truthy(duration) then None
    else match parse(duration.value)
      case None => None
      case Some(x) => Some(TruncateTowardZero(x))
  }

  /** `classify_type`: no duration is "unknown", under a minute is "short",
      a minute or more (60 included) is "normal". */
  function ClassifyType(seconds: Option<int>): (t: VideoType)
    ensures t == Unknown <==> seconds.None?
    ensures t == Short <==> seconds.Some? && seconds.value < 60
    ensures t == Normal <==> seconds.Some? && seconds.value >= 60
  {
    if seconds.None? then Unknown
    else if seconds.value < 60 then Short
    else Normal
  }

  /** Truncation does not move a duration across the one-minute threshold:
      a parsed duration is "short" exactly when it is under 60 seconds, so
      59.9 seconds is "short" and 60.0 seconds is "normal". */
  lemma ClassifyParsedDuration(parse: string -> Option<real>, text: string)
    requires text != "" && parse(text).Some?
    ensures ClassifyType(Iso8601ToSeconds(parse, Some(text))) ==
      if parse(text).value < 60.0 then Short else Normal
  {
    var x := parse(text).value;
    var n := TruncateTowardZero(x);
    if x >= 0.0 {
      assert n < 60 <==> x < 60.0;
    }
  }
}
