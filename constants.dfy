/**
 * The numeric constants of the client library (lib/zookeeper/constants.rb)
 * and the two reverse lookups, event_by_value and state_by_value, which scan
 * the constant names in declaration order and return the first name that
 * matches the pattern /^ZOO..*EVENT$/ (resp. /^ZOO..*STATE$/) and whose
 * value equals the argument.
 */
module Constants {
  import opened Wrappers

  const ZKRB_GLOBAL_CB_REQ := -1

  // file type masks
  const ZOO_EPHEMERAL := 1
  const ZOO_SEQUENCE := 2

  // session states
  const ZOO_EXPIRED_SESSION_STATE := -112
  const ZOO_AUTH_FAILED_STATE := -113
  const ZOO_CLOSED_STATE := 0
  const ZOO_CONNECTING_STATE := 1
  const ZOO_ASSOCIATING_STATE := 2
  const ZOO_CONNECTED_STATE := 3

  // watch event types
  const ZOO_CREATED_EVENT := 1
  const ZOO_DELETED_EVENT := 2
  const ZOO_CHANGED_EVENT := 3
  const ZOO_CHILD_EVENT := 4
  const ZOO_SESSION_EVENT := -1
  const ZOO_NOTWATCHING_EVENT := -2

  // result codes
  const ZOK := 0
  const ZSYSTEMERROR := -1
  const ZRUNTIMEINCONSISTENCY := -2
  const ZDATAINCONSISTENCY := -3
  const ZCONNECTIONLOSS := -4
  const ZMARSHALLINGERROR := -5
  const ZUNIMPLEMENTED := -6
  const ZOPERATIONTIMEOUT := -7
  const ZBADARGUMENTS := -8
  const ZINVALIDSTATE := -9
  const ZAPIERROR := -100
  const ZNONODE := -101
  const ZNOAUTH := -102
  const ZBADVERSION := -103
  const ZNOCHILDRENFOREPHEMERALS := -108
  const ZNODEEXISTS := -110
  const ZNOTEMPTY := -111
  const ZSESSIONEXPIRED := -112
  const ZINVALIDCALLBACK := -113
  const ZINVALIDACL := -114
  const ZAUTHFAILED := -115
  const ZCLOSING := -116
  const ZNOTHING := -117
  const ZSESSIONMOVED := -118

  /** One named constant of the module. */
  datatype Constant = Constant(name: string, value: int)

  /** The module's constants in declaration order, section by section, as the reflective
      scan (`Constants.constants`) lists them. */
  function Table(): seq<Constant>
  {
    Header() + SessionStates() + WatchEvents() + SystemErrors() + ApiErrors()
  }

  /** The global request id and the file type masks. */
  function Header(): seq<Constant>
  {
    [
      Constant("ZKRB_GLOBAL_CB_REQ", ZKRB_GLOBAL_CB_REQ),
      Constant("ZOO_EPHEMERAL", ZOO_EPHEMERAL),
      Constant("ZOO_SEQUENCE", ZOO_SEQUENCE)
    ]
  }

  /** Session states. */
  function SessionStates(): seq<Constant>
  {
    [
      Constant("ZOO_EXPIRED_SESSION_STATE", ZOO_EXPIRED_SESSION_STATE),
      Constant("ZOO_AUTH_FAILED_STATE", ZOO_AUTH_FAILED_STATE),
      Constant("ZOO_CLOSED_STATE", ZOO_CLOSED_STATE),
      Constant("ZOO_CONNECTING_STATE", ZOO_CONNECTING_STATE),
      Constant("ZOO_ASSOCIATING_STATE", ZOO_ASSOCIATING_STATE),
      Constant("ZOO_CONNECTED_STATE", ZOO_CONNECTED_STATE)
    ]
  }

  /** Watch event types. */
  function WatchEvents(): seq<Constant>
  {
    [
      Constant("ZOO_CREATED_EVENT", ZOO_CREATED_EVENT),
      Constant("ZOO_DELETED_EVENT", ZOO_DELETED_EVENT),
      Constant("ZOO_CHANGED_EVENT", ZOO_CHANGED_EVENT),
      Constant("ZOO_CHILD_EVENT", ZOO_CHILD_EVENT),
      Constant("ZOO_SESSION_EVENT", ZOO_SESSION_EVENT),
      Constant("ZOO_NOTWATCHING_EVENT", ZOO_NOTWATCHING_EVENT)
    ]
  }

  /** Result codes: system errors. */
  function SystemErrors(): seq<Constant>
  {
    [
      Constant("ZOK", ZOK),
      Constant("ZSYSTEMERROR", ZSYSTEMERROR),
      Constant("ZRUNTIMEINCONSISTENCY", ZRUNTIMEINCONSISTENCY),
      Constant("ZDATAINCONSISTENCY", ZDATAINCONSISTENCY),
      Constant("ZCONNECTIONLOSS", ZCONNECTIONLOSS),
      Constant("ZMARSHALLINGERROR", ZMARSHALLINGERROR),
      Constant("ZUNIMPLEMENTED", ZUNIMPLEMENTED),
      Constant("ZOPERATIONTIMEOUT", ZOPERATIONTIMEOUT),
      Constant("ZBADARGUMENTS", ZBADARGUMENTS),
      Constant("ZINVALIDSTATE", ZINVALIDSTATE)
    ]
  }

  /** Result codes: API errors. */
  function ApiErrors(): seq<Constant>
  {
    [
      Constant("ZAPIERROR", ZAPIERROR),
      Constant("ZNONODE", ZNONODE),
      Constant("ZNOAUTH", ZNOAUTH),
      Constant("ZBADVERSION", ZBADVERSION),
      Constant("ZNOCHILDRENFOREPHEMERALS", ZNOCHILDRENFOREPHEMERALS),
      Constant("ZNODEEXISTS", ZNODEEXISTS),
      Constant("ZNOTEMPTY", ZNOTEMPTY),
      Constant("ZSESSIONEXPIRED", ZSESSIONEXPIRED),
      Constant("ZINVALIDCALLBACK", ZINVALIDCALLBACK),
      Constant("ZINVALIDACL", ZINVALIDACL),
      Constant("ZAUTHFAILED", ZAUTHFAILED),
      Constant("ZCLOSING", ZCLOSING),
      Constant("ZNOTHING", ZNOTHING),
      Constant("ZSESSIONMOVED", ZSESSIONMOVED)
    ]
  }

  /** The regular expression /^ZOO..*SUFFIX$/: "ZOO", at least one character, then the suffix. */
  predicate MatchesPattern(name: string, suffix: string)
  {
    && |name| >= 4 + |suffix|
    && ZooPrefixed(name)
    && name[|name| - |suffix|..] == suffix
  }

  /** The name starts with "ZOO". */
  predicate ZooPrefixed(name: string)
  {
    |name| >= 3 && name[0] == 'Z' && name[1] == 'O' && name[2] == 'O'
  }

  /** Constant `c` is where the scan for `v` among the names ending in `suffix` stops. */
  predicate Hit(c: Constant, suffix: string, v: int)
  {
    MatchesPattern(c.name, suffix) && c.value == v
  }

  /** The `each` loop with its early `return c`: the name of the first constant of `t` it stops at. */
  function Scan(t: seq<Constant>, suffix: string, v: int): (r: Option<string>)
    ensures r.Some? ==> Constant(r.value, v) in t && MatchesPattern(r.value, suffix)
  {
    if t == [] then None
    else if Hit(t[0], suffix, v) then Some(t[0].name)
    else Scan(t[1..], suffix, v)
  }

  /** The value of the lookup: nil for a nil argument, the first matching name, or, when the
      loop runs to its end without returning, the value of `each` itself: the list of names. */
  datatype Lookup = Nil | Name(name: string) | ScanExhausted(names: seq<string>)

  function Names(t: seq<Constant>): (r: seq<string>)
    ensures |r| == |t| && forall i :: 0 <= i < |t| ==> r[i] == t[i].name
  {
    if t == [] then [] else [t[0].name] + Names(t[1..])
  }

  function ScanByValue(suffix: string, v: Option<int>): (r: Lookup)
    ensures r.Nil? <==> v.None?
    ensures r.Name? ==> Constant(r.name, v.value) in Table() && MatchesPattern(r.name, suffix)
    ensures r.ScanExhausted? ==> r.names == Names(Table())
  {
    match v
    case None => Nil
    case Some(x) =>
      match Scan(Table(), suffix, x)
      case Some(n) => Name(n)
      case None => ScanExhausted(Names(Table()))
  }

  /** event_by_value: only names of the form ZOO..*EVENT are considered. It and
      StateByValue are the same scan, ScanByValue, with different suffixes, as the two
      methods of constants.rb are the same loop with different patterns. */
  function EventByValue(v: Option<int>): (r: Lookup)
    ensures r.Nil? <==> v.None?
    ensures r.Name? ==> Constant(r.name, v.value) in Table() && MatchesPattern(r.name, "EVENT")
  {
    ScanByValue("EVENT", v)
  }

  /** state_by_value: ScanByValue with the suffix STATE, as EventByValue is with EVENT. */
  function StateByValue(v: Option<int>): (r: Lookup)
    ensures r.Nil? <==> v.None?
    ensures r.Name? ==> Constant(r.name, v.value) in Table() && MatchesPattern(r.name, "STATE")
  {
    ScanByValue("STATE", v)
  }

  // ---------------------------------------------------------------------------
  // Which names each section of the table contributes to each pattern.

  lemma HeaderMatchesNeither(c: Constant)
    requires c in Header()
    ensures !MatchesPattern(c.name, "EVENT") && !MatchesPattern(c.name, "STATE")
  {
  }

  lemma SessionStatesMatchState(c: Constant)
    requires c in SessionStates()
    ensures !MatchesPattern(c.name, "EVENT") && MatchesPattern(c.name, "STATE")
  {
    var t := SessionStates();
    var i :| 0 <= i < |t| && t[i] == c;
    if i < 3 { SessionStatesMatchStateLow(i); } else { SessionStatesMatchStateHigh(i); }
  }

  lemma SessionStatesMatchStateLow(i: int)
    requires 0 <= i < 3
    ensures !MatchesPattern(SessionStates()[i].name, "EVENT")
    ensures MatchesPattern(SessionStates()[i].name, "STATE")
  {
  }

  lemma SessionStatesMatchStateHigh(i: int)
    requires 3 <= i < 6
    ensures !MatchesPattern(SessionStates()[i].name, "EVENT")
    ensures MatchesPattern(SessionStates()[i].name, "STATE")
  {
  }

  lemma WatchEventsMatchEvent(c: Constant)
    requires c in WatchEvents()
    ensures MatchesPattern(c.name, "EVENT") && !MatchesPattern(c.name, "STATE")
  {
    var t := WatchEvents();
    var i :| 0 <= i < |t| && t[i] == c;
    if i < 3 { WatchEventsMatchEventLow(i); } else { WatchEventsMatchEventHigh(i); }
  }

  lemma WatchEventsMatchEventLow(i: int)
    requires 0 <= i < 3
    ensures MatchesPattern(WatchEvents()[i].name, "EVENT")
    ensures !MatchesPattern(WatchEvents()[i].name, "STATE")
  {
  }

  lemma WatchEventsMatchEventHigh(i: int)
    requires 3 <= i < 6
    ensures MatchesPattern(WatchEvents()[i].name, "EVENT")
    ensures !MatchesPattern(WatchEvents()[i].name, "STATE")
  {
  }

  lemma SystemErrorsMatchNeither(c: Constant)
    requires c in SystemErrors()
    ensures !MatchesPattern(c.name, "EVENT") && !MatchesPattern(c.name, "STATE")
  {
    var t := SystemErrors();
    var i :| 0 <= i < |t| && t[i] == c;
    SystemErrorsNotZooPrefixed(i);
  }

  /** No result-code name starts with "ZOO". */
  lemma SystemErrorsNotZooPrefixed(i: int)
    requires 0 <= i < 10
    ensures !ZooPrefixed(SystemErrors()[i].name)
  {
  }

  lemma ApiErrorsMatchNeither(c: Constant)
    requires c in ApiErrors()
    ensures !MatchesPattern(c.name, "EVENT") && !MatchesPattern(c.name, "STATE")
  {
    var t := ApiErrors();
    var i :| 0 <= i < |t| && t[i] == c;
    ApiErrorsNotZooPrefixed(i);
  }

  /** No result-code name starts with "ZOO". */
  lemma ApiErrorsNotZooPrefixed(i: int)
    requires 0 <= i < 14
    ensures !ZooPrefixed(ApiErrors()[i].name)
  {
  }

  /** A constant of the table matches the event pattern iff it is in the watch-event section,
      and the state pattern iff it is in the session-state section. */
  lemma Classification(c: Constant)
    requires c in Table()
    ensures MatchesPattern(c.name, "EVENT") <==> c in WatchEvents()
    ensures MatchesPattern(c.name, "STATE") <==> c in SessionStates()
  {
    var t := Table();
    assert t == Header() + SessionStates() + WatchEvents() + SystemErrors() + ApiErrors();
    if c in Header() {
      HeaderMatchesNeither(c);
    } else if c in SessionStates() {
      SessionStatesMatchState(c);
    } else if c in WatchEvents() {
      WatchEventsMatchEvent(c);
    } else if c in SystemErrors() {
      SystemErrorsMatchNeither(c);
    } else {
      ApiErrorsMatchNeither(c);
    }
    assert c in WatchEvents() ==> !(c in SessionStates());
  }

  // ---------------------------------------------------------------------------
  // The scan.

  /** When exactly one constant of `t` matches, the scan returns its name. */
  lemma {:induction false} ScanFindsUnique(t: seq<Constant>, suffix: string, c: Constant)
    requires c in t && MatchesPattern(c.name, suffix)
    requires forall d :: d in t && Hit(d, suffix, c.value) ==> d == c
    ensures Scan(t, suffix, c.value) == Some(c.name)
  {
    if t[0] != c {
      assert c in t[1..];
      forall d | d in t[1..] && Hit(d, suffix, c.value) ensures d == c {
        assert d in t;
      }
      ScanFindsUnique(t[1..], suffix, c);
    }
  }

  /** When no constant of `t` matches, the scan runs to the end. */
  lemma {:induction false} ScanFindsNothing(t: seq<Constant>, suffix: string, v: int)
    requires forall d :: d in t ==> !Hit(d, suffix, v)
    ensures Scan(t, suffix, v) == None
  {
    if t != [] {
      assert t[0] in t;
      forall d | d in t[1..] ensures !Hit(d, suffix, v) {
        assert d in t;
      }
      ScanFindsNothing(t[1..], suffix, v);
    }
  }

  /** Event values are pairwise distinct: two event constants with one value are one constant. */
  lemma EventValuesDistinct(c: Constant, d: Constant)
    requires c in WatchEvents() && d in WatchEvents() && c.value == d.value
    ensures c == d
  {
  }

  /** State values are pairwise distinct. */
  lemma StateValuesDistinct(c: Constant, d: Constant)
    requires c in SessionStates() && d in SessionStates() && c.value == d.value
    ensures c == d
  {
  }

  /** event_by_value inverts the name-to-value table for every event name ... */
  lemma EventByValueFinds(c: Constant)
    requires c in WatchEvents()
    ensures EventByValue(Some(c.value)) == Name(c.name)
  {
    assert c in Table();
    WatchEventsMatchEvent(c);
    forall d | d in Table() && Hit(d, "EVENT", c.value) ensures d == c {
      Classification(d);
      EventValuesDistinct(c, d);
    }
    ScanFindsUnique(Table(), "EVENT", c);
  }

  /** ... and only names an event name: what it returns is an event constant with that value. */
  lemma EventByValueSound(v: int, n: string)
    requires EventByValue(Some(v)) == Name(n)
    ensures Constant(n, v) in WatchEvents()
  {
    Classification(Constant(n, v));
  }

  /** With no event of that value, the loop runs out and the lookup is the list of names. */
  lemma EventByValueExhausted(v: int)
    requires forall c :: c in WatchEvents() ==> c.value != v
    ensures EventByValue(Some(v)) == ScanExhausted(Names(Table()))
  {
    forall d | d in Table() ensures !Hit(d, "EVENT", v) {
      Classification(d);
    }
    ScanFindsNothing(Table(), "EVENT", v);
  }

  /** state_by_value inverts the name-to-value table for every state name ... */
  lemma StateByValueFinds(c: Constant)
    requires c in SessionStates()
    ensures StateByValue(Some(c.value)) == Name(c.name)
  {
    assert c in Table();
    SessionStatesMatchState(c);
    forall d | d in Table() && Hit(d, "STATE", c.value) ensures d == c {
      Classification(d);
      StateValuesDistinct(c, d);
    }
    ScanFindsUnique(Table(), "STATE", c);
  }

  /** ... and only names a state name. */
  lemma StateByValueSound(v: int, n: string)
    requires StateByValue(Some(v)) == Name(n)
    ensures Constant(n, v) in SessionStates()
  {
    Classification(Constant(n, v));
  }

  /** With no state of that value, the loop runs out and the lookup is the list of names. */
  lemma StateByValueExhausted(v: int)
    requires forall c :: c in SessionStates() ==> c.value != v
    ensures StateByValue(Some(v)) == ScanExhausted(Names(Table()))
  {
    forall d | d in Table() ensures !Hit(d, "STATE", v) {
      Classification(d);
    }
    ScanFindsNothing(Table(), "STATE", v);
  }

  /** A nil argument returns nil before the scan. */
  lemma NilLooksUpNil()
    ensures EventByValue(None) == Nil && StateByValue(None) == Nil
  {
  }

  /** The worked cases: -1 is the session event, 0 is the closed state (not ZOK), and -112 is
      the expired-session state even though ZSESSIONEXPIRED has the same value. */
  lemma LookupExamples()
    ensures EventByValue(Some(-1)) == Name("ZOO_SESSION_EVENT")
    ensures StateByValue(Some(0)) == Name("ZOO_CLOSED_STATE")
    ensures StateByValue(Some(-112)) == Name("ZOO_EXPIRED_SESSION_STATE")
    ensures Constant("ZSESSIONEXPIRED", -112) in Table()
  {
    EventByValueFinds(Constant("ZOO_SESSION_EVENT", -1));
    StateByValueFinds(Constant("ZOO_CLOSED_STATE", 0));
    StateByValueFinds(Constant("ZOO_EXPIRED_SESSION_STATE", -112));
    assert Constant("ZSESSIONEXPIRED", -112) in SystemErrors() + ApiErrors();
  }
}
