/** The five severity levels, the level filter (`currentLogLevels`) and the
    per-level display metadata. */
module Levels {
  import opened Text

  datatype Level = Debug | Log | Info | Warn | Error

  /** Declaration order of the levels; also the key order of every filter
      object the logger builds. */
  const AllLevels: seq<Level> := [Debug, Log, Info, Warn, Error]

  function Name(l: Level): string
  {
    match l
    case Debug => "debug"
    case Log => "log"
    case Info => "info"
    case Warn => "warn"
    case Error => "error"
  }

  /** The level whose name is exactly `s` (a `hasOwnProperty` test on a
      filter object), if any. */
  function FromName(s: string): (r: Option<Level>)
    ensures r.Some? ==> Name(r.value) == s
    ensures r.None? ==> forall l :: Name(l) != s
  {
    if s == "debug" then Some(Debug)
    else if s == "log" then Some(Log)
    else if s == "info" then Some(Info)
    else if s == "warn" then Some(Warn)
    else if s == "error" then Some(Error)
    else None
  }

  lemma NameRoundTrip(l: Level)
    ensures FromName(Name(l)) == Some(l)
  {
  }

  /** A level string that begins with a digit is never a level name, so the
      index keys of an array never select a level. */
  lemma DigitKeyIsNoLevel(s: string)
    requires |s| > 0 && IsDigit(s[0])
    ensures FromName(s) == None
  {
    if FromName(s).Some? {
      var l := FromName(s).value;
      assert s[0] == Name(l)[0];
    }
  }

  /** `currentLogLevels`: level name to enabled flag. */
  type Filter = map<Level, bool>

  predicate Total(f: Filter)
  {
    Debug in f && Log in f && Info in f && Warn in f && Error in f
  }

  const DefaultFilter: Filter :=
    map[Debug := false, Log := true, Info := true, Warn := true, Error := true]

  /** The fresh object `setLogLevel` starts from. */
  const NoLevels: Filter :=
    map[Debug := false, Log := false, Info := false, Warn := false, Error := false]

  lemma DefaultFilterFacts()
    ensures Total(DefaultFilter) && Total(NoLevels)
    ensures !DefaultFilter[Debug] && DefaultFilter[Error]
  {
  }

  /** `_isLoggingEnabled(level)`: not paused, and the filter does not say
      `false` for the level (an absent entry counts as enabled). */
  predicate LoggingEnabled(paused: bool, f: Filter, l: Level)
  {
    !paused && !(l in f && f[l] == false)
  }

  lemma LoggingEnabledOnTotal(paused: bool, f: Filter, l: Level)
    requires Total(f)
    ensures LoggingEnabled(paused, f, l) <==> !paused && f[l]
  {
  }

  function BoolText(b: bool): string
  {
    if b then "true" else "false"
  }

  /** `JSON.stringify(currentLogLevels)`: the present levels in declaration
      order. */
  function FilterJson(f: Filter): string
  {
    "{" + Join(FilterMembers(f, AllLevels), ",") + "}"
  }

  function FilterMembers(f: Filter, ls: seq<Level>): seq<string>
  {
    if ls == [] then []
    else
      (if ls[0] in f then ["\"" + Name(ls[0]) + "\":" + BoolText(f[ls[0]])] else [])
      + FilterMembers(f, ls[1..])
  }

  datatype Meta = Meta(tag: string, color: string)

  /** `logColors`; the logger never changes it, so the `||` fallbacks of
      `_getLogLevelMeta` always pick these. */
  function Color(l: Level): string
  {
    match l
    case Debug => "#6666ff"
    case Log => "#333333"
    case Info => "#0088cc"
    case Warn => "#ff9900"
    case Error => "#ff3333"
  }

  /** `_getLogLevelMeta`: label `'[' + level.toUpperCase() + ']'`. */
  function LevelMeta(l: Level): (m: Meta)
    ensures |m.tag| == |Name(l)| + 2
    ensures m.tag[0] == '[' && m.tag[|m.tag| - 1] == ']'
    ensures m.tag[1..|m.tag| - 1] == Upper(Name(l))
  {
    Meta("[" + Upper(Name(l)) + "]", Color(l))
  }

  /** The label names its level: lowering the text between the brackets gives
      back the level name. */
  lemma LevelMetaNamesLevel(l: Level)
    ensures FromName(Lower(LevelMeta(l).tag[1..|LevelMeta(l).tag| - 1])) == Some(l)
  {
    var n := Name(l);
    assert Lower(Upper(n)) == n by {
      forall i | 0 <= i < |n| ensures LowerChar(UpperChar(n[i])) == n[i] {
        assert 'a' <= n[i] <= 'z';
      }
    }
  }
}
