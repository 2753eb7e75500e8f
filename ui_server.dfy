/**
 * The mission-control UI server: the listing of mission log files, the proxies that pass
 * requests on to the mission sequencer and shape its failures into error responses, and
 * the health check.
 */
module MissionControlUi {
  import opened Wrappers
  import opened Text
  import opened RedisModel
  import opened Http

  /** Python's ordering of strings: lexicographic by code point, a proper prefix first. */
  predicate LexLe(a: string, b: string)
    decreases |a|
  {
    a == [] || (b != [] && (a[0] < b[0] || (a[0] == b[0] && LexLe(a[1..], b[1..]))))
  }

  /** `a` and `b` agree before position `k`, where `a` has the smaller character. */
  predicate FirstDifferenceBelow(a: string, b: string, k: nat) {
    k < |a| && k < |b| && a[..k] == b[..k] && a[k] < b[k]
  }

  /** The order is the usual one: a prefix comes first, and otherwise the first position
      where the strings differ decides. */
  lemma {:induction false} LexLeFirstDifference(a: string, b: string)
    ensures LexLe(a, b) <==> a <= b || exists k: nat :: FirstDifferenceBelow(a, b, k)
    decreases |a|
  {
    if a == [] || b == [] {
    } else if a[0] < b[0] {
      assert FirstDifferenceBelow(a, b, 0);
    } else if a[0] != b[0] {
    } else {
      LexLeFirstDifference(a[1..], b[1..]);
      assert a <= b <==> a[1..] <= b[1..];
      if k: nat :| FirstDifferenceBelow(a[1..], b[1..], k) {
        assert a[..k + 1] == [a[0]] + a[1..][..k];
        assert b[..k + 1] == [b[0]] + b[1..][..k];
        assert FirstDifferenceBelow(a, b, k + 1);
      }
      if k: nat :| FirstDifferenceBelow(a, b, k) {
        assert k > 0;
        assert a[1..][..k - 1] == a[..k][1..];
        assert b[1..][..k - 1] == b[..k][1..];
        assert FirstDifferenceBelow(a[1..], b[1..], k - 1);
      }
    }
  }

  lemma {:induction false} LexTotal(a: string, b: string)
    ensures LexLe(a, b) || LexLe(b, a)
    decreases |a|
  {
    if a != [] && b != [] && a[0] == b[0] {
      LexTotal(a[1..], b[1..]);
    }
  }

  lemma {:induction false} LexReflexive(a: string)
    ensures LexLe(a, a)
    decreases |a|
  {
    if a != [] {
      LexReflexive(a[1..]);
    }
  }

  lemma {:induction false} LexAntisymmetric(a: string, b: string)
    requires LexLe(a, b) && LexLe(b, a)
    ensures a == b
    decreases |a|
  {
    if a != [] {
      LexAntisymmetric(a[1..], b[1..]);
      assert a == [a[0]] + a[1..] && b == [b[0]] + b[1..];
    }
  }

  lemma {:induction false} LexTransitive(a: string, b: string, c: string)
    requires LexLe(a, b) && LexLe(b, c)
    ensures LexLe(a, c)
    decreases |a|
  {
    if a != [] && a[0] == b[0] && b[0] == c[0] {
      LexTransitive(a[1..], b[1..], c[1..]);
    }
  }

  /** Each name comes no earlier than every name after it, in Python's string order. */
  predicate Descending(s: seq<string>) {
    forall i, j :: 0 <= i < j < |s| ==> LexLe(s[j], s[i])
  }

  /** `f.startswith('mission_') and f.endswith('.log')`. */
  predicate IsMissionLog(name: string) {
    && |name| >= 8 && name[..8] == "mission_"
    && |name| >= 4 && name[|name| - 4..] == ".log"
  }

  /** The comprehension over the directory entries, in directory order. */
  function MissionLogs(names: seq<string>): (r: seq<string>)
    ensures forall x :: multiset(r)[x] == if IsMissionLog(x) then multiset(names)[x] else 0
  {
    if names == [] then []
    else
      assert names == [names[0]] + names[1..];
      (if IsMissionLog(names[0]) then [names[0]] else []) + MissionLogs(names[1..])
  }

  /** A name no earlier than the head of a descending sequence can go in front of it. */
  lemma PrependAbove(x: string, s: seq<string>)
    requires Descending(s) && s != [] && LexLe(s[0], x)
    ensures Descending([x] + s)
  {
    forall i, j | 0 <= i < j < |[x] + s| ensures LexLe(([x] + s)[j], ([x] + s)[i]) {
      if i == 0 && j > 1 {
        LexTransitive(s[j - 1], s[0], x);
      }
    }
  }

  /** The head of a descending sequence, followed by a descending arrangement of its tail
      and a name below the head, is descending. */
  lemma PrependHead(x: string, s: seq<string>, rest: seq<string>)
    requires Descending(s) && s != [] && LexLe(x, s[0])
    requires Descending(rest) && multiset(rest) == multiset(s[1..]) + multiset{x}
    ensures Descending([s[0]] + rest)
  {
    forall k | 0 <= k < |rest| ensures LexLe(rest[k], s[0]) {
      assert rest[k] in multiset(rest);
      if rest[k] != x {
        assert rest[k] in multiset(s[1..]);
        var m :| 0 <= m < |s[1..]| && s[1..][m] == rest[k];
        assert s[m + 1] == rest[k];
      }
    }
  }

  /** Places `x` in a descending sequence. */
  function Insert(x: string, s: seq<string>): (r: seq<string>)
    requires Descending(s)
    ensures Descending(r) && multiset(r) == multiset(s) + multiset{x}
  {
    if s == [] then [x]
    else if LexLe(s[0], x) then
      PrependAbove(x, s);
      [x] + s
    else
      LexTotal(s[0], x);
      var rest := Insert(x, s[1..]);
      PrependHead(x, s, rest);
      assert s == [s[0]] + s[1..];
      [s[0]] + rest
  }

  /** `sorted(logs, reverse=True)`. */
  function SortDescending(s: seq<string>): (r: seq<string>)
    ensures Descending(r) && multiset(r) == multiset(s)
  {
    if s == [] then []
    else
      assert s == [s[0]] + s[1..];
      Insert(s[0], SortDescending(s[1..]))
  }

  /** There is only one descending arrangement of a collection of names, so the listing is
      the one Python's `sorted(..., reverse=True)` produces, whatever sorting method. */
  lemma {:induction false} DescendingUnique(a: seq<string>, b: seq<string>)
    requires Descending(a) && Descending(b) && multiset(a) == multiset(b)
    ensures a == b
    decreases |a|
  {
    if a != [] {
      assert |b| == |multiset(b)| == |multiset(a)| == |a|;
      SameMaximum(a, b);
      SameMaximum(b, a);
      LexAntisymmetric(a[0], b[0]);
      MultisetTail(a, b);
      DescendingUnique(a[1..], b[1..]);
      assert a == [a[0]] + a[1..] && b == [b[0]] + b[1..];
    }
  }

  /** The head of a descending sequence is no earlier than anything in the same collection. */
  lemma SameMaximum(a: seq<string>, b: seq<string>)
    requires Descending(b) && multiset(a) == multiset(b) && a != [] && b != []
    ensures LexLe(a[0], b[0])
  {
    assert a[0] in multiset(b);
    var i :| 0 <= i < |b| && b[i] == a[0];
    if i == 0 {
      LexReflexive(a[0]);
    } else {
      assert LexLe(b[i], b[0]);
    }
  }

  lemma MultisetTail(a: seq<string>, b: seq<string>)
    requires a != [] && b != [] && a[0] == b[0] && multiset(a) == multiset(b)
    ensures multiset(a[1..]) == multiset(b[1..])
  {
    assert a == [a[0]] + a[1..] && b == [b[0]] + b[1..];
    assert multiset(a) == multiset{a[0]} + multiset(a[1..]);
    assert multiset(b) == multiset{b[0]} + multiset(b[1..]);
    forall x ensures multiset(a[1..])[x] == multiset(b[1..])[x] {
      assert multiset(a)[x] == multiset{a[0]}[x] + multiset(a[1..])[x];
      assert multiset(b)[x] == multiset{b[0]}[x] + multiset(b[1..])[x];
    }
  }

  /** What `os.path.exists` and `os.listdir` find: no directory, one that cannot be read,
      or its entries. */
  datatype LogsDir = Missing | Unreadable | Entries(names: seq<string>)

  /** `list_mission_logs`. */
  function ListMissionLogs(dir: LogsDir): (r: Response)
    ensures dir.Missing? ==> r == Response(200, Listing([]))
    ensures dir.Unreadable? ==> r == Error(500, "Could not list mission logs")
    ensures dir.Entries? ==> r.code == 200 && r.body.Listing?
    ensures dir.Entries? ==> forall x :: x in r.body.names ==> IsMissionLog(x) && x in dir.names
    ensures dir.Entries? ==>
      forall x :: multiset(r.body.names)[x] == if IsMissionLog(x) then multiset(dir.names)[x] else 0
    ensures dir.Entries? ==> Descending(r.body.names)
  {
    match dir
    case Missing => Response(200, Listing([]))
    case Unreadable => Error(500, "Could not list mission logs")
    case Entries(names) =>
      var listing := SortDescending(MissionLogs(names));
      assert forall x :: x in listing ==> x in multiset(listing);
      Response(200, Listing(listing))
  }

  /** Any two listings of the same directory are the same. */
  lemma ListingDetermined(names: seq<string>, other: seq<string>)
    requires Descending(other)
    requires forall x :: multiset(other)[x] == if IsMissionLog(x) then multiset(names)[x] else 0
    ensures ListMissionLogs(Entries(names)).body.names == other
  {
    var mine := ListMissionLogs(Entries(names)).body.names;
    assert multiset(mine) == multiset(other);
    DescendingUnique(mine, other);
  }

  /** What the mission sequencer's reply body parses as: a JSON object (the model keeps its
      string members), or text that `response.json()` rejects, with the decoder's message. */
  datatype ReplyBody = JsonObject(fields: map<string, string>) | NotJson(decodeError: string)

  /** The outcome of the proxied request: no reply at all (`requests` raised, with its
      message), or a reply with a status code and a body. */
  datatype Upstream = Unreachable(reason: string) | Answered(code: nat, body: ReplyBody)

  /** `response.raise_for_status()` raises for client and server errors. */
  predicate RaisesForStatus(code: nat) {
    400 <= code < 600
  }

  /** A reply the proxies pass on: no error status and a JSON body. */
  predicate Relayable(u: Upstream) {
    u.Answered? && !RaisesForStatus(u.code) && u.body.JsonObject?
  }

  /** The message the status proxy builds from an error reply: the sequencer's `error`, or
      failing that the status code, followed by the body's `details` when it has them. */
  function ReplyErrorMessage(code: nat, body: ReplyBody): (m: string)
    ensures var d := if body.JsonObject? && "details" in body.fields then " - Details: " + body.fields["details"] else "";
      |m| >= |d| && m[|m| - |d|..] == d
    ensures body.JsonObject? && "error" in body.fields ==>
      var e := body.fields["error"];
      |m| >= 25 + |e| && m[..25 + |e|] == "Mission Sequencer error: " + e
    ensures body.NotJson? || "error" !in body.fields ==>
      && |m| >= 40 + |NatToDecimal(code)| && m[..40] == "Mission Sequencer responded with error: "
      && m[40..40 + |NatToDecimal(code)|] == NatToDecimal(code)
      && DecimalValue(m[40..40 + |NatToDecimal(code)|]) == code
  {
    var digits := NatToDecimal(code);
    var base := "Mission Sequencer responded with error: " + digits;
    var head := if body.JsonObject? && "error" in body.fields then "Mission Sequencer error: " + body.fields["error"] else base;
    var details := if body.JsonObject? && "details" in body.fields then " - Details: " + body.fields["details"] else "";
    DecimalRoundTrip(code);
    assert (base + details)[40..40 + |digits|] == digits;
    head + details
  }

  /** `get_mission_status` in the UI. A reply that is not an error but does not parse raises
      a `requests` exception without a response, like an unreachable sequencer. */
  function ProxyStatus(u: Upstream): (r: Response)
    ensures Relayable(u) ==> r == Response(u.code, Relayed(u.body.fields))
    ensures !Relayable(u) ==> r.body.ErrorBody? && r.body.details.None?
    ensures u.Answered? && RaisesForStatus(u.code) ==> r.code == u.code
    ensures u.Unreachable? ==> r == Error(502, "Failed to connect to Mission Sequencer: " + u.reason)
    ensures u.Answered? && !RaisesForStatus(u.code) && u.body.NotJson? ==>
      r == Error(502, "Failed to connect to Mission Sequencer: " + u.body.decodeError)
  {
    match u
    case Unreachable(reason) => Error(502, "Failed to connect to Mission Sequencer: " + reason)
    case Answered(code, body) =>
      if RaisesForStatus(code) then Error(code, ReplyErrorMessage(code, body))
      else match body
        case JsonObject(fields) => Response(code, Relayed(fields))
        case NotJson(e) => Error(502, "Failed to connect to Mission Sequencer: " + e)
  }

  /** The error message of an error reply: it names the sequencer's `error` when the body
      has one and otherwise the status code, whose digits read back as that code; the
      `details` of the body, when it has them, follow in either case. */
  lemma {:induction false} ErrorReplyMessage(code: nat, body: ReplyBody)
    requires RaisesForStatus(code)
    ensures var m := ProxyStatus(Answered(code, body)).body.error;
      (body.JsonObject? && "error" in body.fields && "details" !in body.fields)
        ==> m == "Mission Sequencer error: " + body.fields["error"]
    ensures var m := ProxyStatus(Answered(code, body)).body.error;
      (body.JsonObject? && "error" in body.fields && "details" in body.fields)
        ==> m == "Mission Sequencer error: " + body.fields["error"] + " - Details: " + body.fields["details"]
    ensures var m := ProxyStatus(Answered(code, body)).body.error;
      (body.NotJson? || "error" !in body.fields) ==>
        m == "Mission Sequencer responded with error: " + NatToDecimal(code)
          + (if body.JsonObject? && "details" in body.fields then " - Details: " + body.fields["details"] else "")
    ensures var m := ProxyStatus(Answered(code, body)).body.error;
      (body.NotJson? || "error" !in body.fields) ==>
        && |m| > 40 && m[..40] == "Mission Sequencer responded with error: "
        && DecimalValue(m[40..40 + |NatToDecimal(code)|]) == code
  {
    var digits := NatToDecimal(code);
    var base := "Mission Sequencer responded with error: " + digits;
    var m := ProxyStatus(Answered(code, body)).body.error;
    if body.NotJson? || "error" !in body.fields {
      assert m[..|base|] == base;
      assert m[40..40 + |digits|] == digits;
      DecimalRoundTrip(code);
    }
  }

  /** `submit_mission` and `abort_mission` in the UI: every failure, whatever the sequencer
      answered, becomes the same 502. */
  function ProxyForward(u: Upstream): (r: Response)
    ensures Relayable(u) ==> r == Response(u.code, Relayed(u.body.fields))
    ensures !Relayable(u) ==> r == Error(502, "Failed to connect to Mission Sequencer")
  {
    if Relayable(u) then Response(u.code, Relayed(u.body.fields))
    else Error(502, "Failed to connect to Mission Sequencer")
  }

  /** The proxies agree on success; on failure only the status proxy passes on the
      sequencer's own error code (a 404 for an unknown mission, say). */
  lemma ProxiesCompared(u: Upstream)
    ensures Relayable(u) ==> ProxyForward(u) == ProxyStatus(u)
    ensures !Relayable(u) ==> ProxyForward(u).code == 502
    ensures ProxyStatus(u).code != 502 && !Relayable(u) ==> u.Answered? && ProxyStatus(u).code == u.code
  {
  }

  /** `health_check` in the UI. `store` is None when the start-up connection failed; only a
      `ConnectionError` from the ping is caught. */
  function HealthUi(store: Option<PingResult>): (r: Response)
    ensures store != Some(OtherFailure) ==> r.code == 200 && r.body.HealthBody?
    ensures store != Some(OtherFailure) ==>
      (r.body.status == "ok" <==> store == Some(Pong)) && r.body.redis == (if store == Some(Pong) then "ok" else "error")
    ensures store == Some(OtherFailure) ==> r == InternalServerError
  {
    match store
    case Some(OtherFailure) => InternalServerError
    case _ =>
      var ok := store == Some(Pong);
      Response(200, HealthBody("Mission Control UI", if ok then "ok" else "degraded", if ok then "ok" else "error"))
  }
}
