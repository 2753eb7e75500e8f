/**
 * The flight-control service's log level: the `LOG_LEVEL` setting, upper-cased, looked up
 * among Python's logging level names, INFO when it names none of them.
 */
module GncConfig {
  const Debug := 10
  const Info := 20
  const Warning := 30
  const Error := 40
  const Critical := 50

  const LevelMap: map<string, int> :=
    map["DEBUG" := Debug, "INFO" := Info, "WARNING" := Warning, "ERROR" := Error, "CRITICAL" := Critical]

  /** `str.upper` on one character, for the characters whose upper case is a single ASCII
      letter: the ASCII lower-case letters, dotless i and long s. */
  function UpperChar(c: char): char {
    if 'a' <= c <= 'z' then ((c as int) - 32) as char
    else if c == 'ı' then 'I'
    else if c == 'ſ' then 'S'
    else c
  }

  function Upper(s: string): string {
    if s == [] then [] else [UpperChar(s[0])] + Upper(s[1..])
  }

  lemma {:induction false} UpperPointwise(s: string)
    ensures |Upper(s)| == |s|
    ensures forall k :: 0 <= k < |s| ==> Upper(s)[k] == UpperChar(s[k])
    decreases |s|
  {
    if s != [] {
      UpperPointwise(s[1..]);
    }
  }

  /** Upper-casing twice is upper-casing once. */
  lemma {:induction false} UpperIdempotent(s: string)
    ensures Upper(Upper(s)) == Upper(s)
  {
    UpperPointwise(s);
    UpperPointwise(Upper(s));
  }

  /** `get_log_level`. */
  function LogLevel(setting: string): (level: int)
    ensures level in {Debug, Info, Warning, Error, Critical}
    ensures Upper(setting) in LevelMap ==> level == LevelMap[Upper(setting)]
    ensures Upper(setting) !in LevelMap ==> level == Info
  {
    if Upper(setting) in LevelMap then LevelMap[Upper(setting)] else Info
  }

  /** A setting that spells a level name in any mix of cases resolves to that level, and
      upper-casing the setting first changes nothing. */
  lemma {:induction false} CaseInsensitive(setting: string, name: string)
    requires name in LevelMap
    requires |setting| == |name| && forall k :: 0 <= k < |name| ==> UpperChar(setting[k]) == name[k]
    ensures LogLevel(setting) == LevelMap[name]
    ensures LogLevel(Upper(setting)) == LogLevel(setting)
  {
    UpperPointwise(setting);
    assert Upper(setting) == name;
    UpperIdempotent(setting);
  }

  /** Each level is reached from its own name only, apart from INFO, which is also the
      answer for every unrecognised setting. */
  lemma LevelOrigins(setting: string)
    ensures LogLevel(setting) == Debug <==> Upper(setting) == "DEBUG"
    ensures LogLevel(setting) == Warning <==> Upper(setting) == "WARNING"
    ensures LogLevel(setting) == Error <==> Upper(setting) == "ERROR"
    ensures LogLevel(setting) == Critical <==> Upper(setting) == "CRITICAL"
    ensures LogLevel(setting) == Info <==> Upper(setting) == "INFO" || Upper(setting) !in LevelMap
  {
  }
}
