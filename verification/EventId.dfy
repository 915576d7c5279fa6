/** The id of a service event: a string of colon-separated parts. */
module EventId {
  import opened Options
  import opened Decimals
  import opened ParseView
  import opened ParseOrder

  datatype Protocol = Pumpfun | PumpAmm

  datatype EventType = Trade | Create | Migrate | Swap | CreatePool | Deposit | Withdraw

  /** Whether there is an inner index decides the form; where the instruction was found is not looked at. */
  datatype Path = Path(outerIndex: nat, innerIndex: Option<nat>)

  function ProtocolName(p: Protocol): string { if p.Pumpfun? then "pumpfun" else "pumpamm" }

  function TypeName(t: EventType): string {
    match t
    case Trade => "trade"
    case Create => "create"
    case Migrate => "migrate"
    case Swap => "swap"
    case CreatePool => "create_pool"
    case Deposit => "deposit"
    case Withdraw => "withdraw"
  }

  function BuildServiceEventId(protocol: Protocol, eventType: EventType, signature: string, path: Path): string {
    var head := "solana:" + ProtocolName(protocol) + ":" + TypeName(eventType) + ":" + signature;
    match path.innerIndex
    case Some(inner) => head + ":inner:" + Decimal(path.outerIndex) + ":" + Decimal(inner)
    case None => head + ":outer:" + Decimal(path.outerIndex)
  }

  predicate ColonFree(s: string) { forall i | 0 <= i < |s| :: s[i] != ':' }

  // ----- Parts -----

  function Join(parts: seq<string>): string {
    if parts == [] then ""
    else if |parts| == 1 then parts[0]
    else parts[0] + ":" + Join(parts[1..])
  }

  predicate AllColonFree(parts: seq<string>) { forall i | 0 <= i < |parts| :: ColonFree(parts[i]) }

  lemma {:induction false} ColonAt(a: string, x: string)
    requires ColonFree(a)
    ensures |a| < |a + ":" + x| && (a + ":" + x)[|a|] == ':'
    ensures forall i | 0 <= i < |a| :: (a + ":" + x)[i] != ':'
    ensures (a + ":" + x)[..|a|] == a && (a + ":" + x)[|a| + 1..] == x
  {
  }

  lemma {:induction false} FirstColon(a: string, x: string, b: string, y: string)
    requires ColonFree(a) && ColonFree(b) && a + ":" + x == b + ":" + y
    ensures a == b && x == y
  {
    ColonAt(a, x);
    ColonAt(b, y);
    assert |a| == |b|;
  }

  lemma {:induction false} NoColon(a: string, b: string, y: string)
    requires ColonFree(a)
    ensures a != b + ":" + y
  {
    assert (b + ":" + y)[|b|] == ':';
  }

  /** Colon-free parts can be told apart in the joined string. */
  lemma {:induction false} JoinIsInjective(a: seq<string>, b: seq<string>)
    requires a != [] && b != [] && AllColonFree(a) && AllColonFree(b) && Join(a) == Join(b)
    ensures a == b
    decreases |a|
  {
    if |a| == 1 {
      if |b| > 1 { NoColon(a[0], b[0], Join(b[1..])); }
    } else if |b| == 1 {
      NoColon(b[0], a[0], Join(a[1..]));
    } else {
      FirstColon(a[0], Join(a[1..]), b[0], Join(b[1..]));
      JoinIsInjective(a[1..], b[1..]);
      assert a == [a[0]] + a[1..] && b == [b[0]] + b[1..];
    }
  }

  function Parts(protocol: Protocol, eventType: EventType, signature: string, path: Path): seq<string> {
    var head := ["solana", ProtocolName(protocol), TypeName(eventType), signature];
    match path.innerIndex
    case Some(inner) => head + ["inner", Decimal(path.outerIndex), Decimal(inner)]
    case None => head + ["outer", Decimal(path.outerIndex)]
  }

  lemma {:induction false} JoinStep(a: string, rest: seq<string>)
    requires rest != []
    ensures Join([a] + rest) == a + ":" + Join(rest)
  {
  }

  lemma {:induction false} JoinHead(a: string, b: string, c: string, d: string, rest: seq<string>)
    requires rest != []
    ensures Join([a, b, c, d] + rest) == a + ":" + b + ":" + c + ":" + d + ":" + Join(rest)
  {
    assert [a, b, c, d] + rest == [a] + ([b] + ([c] + ([d] + rest)));
    JoinStep(d, rest);
    JoinStep(c, [d] + rest);
    JoinStep(b, [c] + ([d] + rest));
    JoinStep(a, [b] + ([c] + ([d] + rest)));
  }

  lemma {:induction false} OuterForm(head: string, o: string)
    ensures head + ":" + Join(["outer", o]) == head + ":outer:" + o
  {
  }

  lemma {:induction false} InnerForm(head: string, o: string, i: string)
    ensures head + ":" + Join(["inner", o, i]) == head + ":inner:" + o + ":" + i
  {
    assert ["inner", o, i] == ["inner"] + ([o] + [i]);
    JoinStep(o, [i]);
    JoinStep("inner", [o] + [i]);
    assert ":" + ("inner" + ":" + (o + ":" + i)) == ":inner:" + o + ":" + i;
  }

  lemma {:induction false} HeadForm(p: string, t: string, s: string)
    ensures "solana" + ":" + p + ":" + t + ":" + s == "solana:" + p + ":" + t + ":" + s
  {
  }

  lemma {:induction false} IdIsJoin(protocol: Protocol, eventType: EventType, signature: string, path: Path)
    ensures BuildServiceEventId(protocol, eventType, signature, path) ==
              Join(Parts(protocol, eventType, signature, path))
  {
    var p, t, o := ProtocolName(protocol), TypeName(eventType), Decimal(path.outerIndex);
    HeadForm(p, t, signature);
    var head := "solana:" + p + ":" + t + ":" + signature;
    match path.innerIndex
    case Some(inner) =>
      JoinHead("solana", p, t, signature, ["inner", o, Decimal(inner)]);
      InnerForm(head, o, Decimal(inner));
    case None =>
      JoinHead("solana", p, t, signature, ["outer", o]);
      OuterForm(head, o);
  }

  lemma {:induction false} NamesDiffer(p: Protocol, q: Protocol, t: EventType, u: EventType)
    ensures ProtocolName(p) == ProtocolName(q) ==> p == q
    ensures TypeName(t) == TypeName(u) ==> t == u
    ensures ColonFree(ProtocolName(p)) && ColonFree(TypeName(t))
  {
  }

  lemma {:induction false} PartsColonFree(protocol: Protocol, eventType: EventType, signature: string, path: Path)
    requires ColonFree(signature)
    ensures AllColonFree(Parts(protocol, eventType, signature, path))
  {
    NamesDiffer(protocol, protocol, eventType, eventType);
    DecimalReads(path.outerIndex);
    if path.innerIndex.Some? { DecimalReads(path.innerIndex.value); }
  }

  /** The parts of a text between its colons. */
  function Split(s: string): seq<string> {
    var k := ColonOf(s);
    if k == |s| then [s] else [s[..k]] + Split(s[k + 1..])
  }

  /** The place of the first colon, or the end. */
  function ColonOf(s: string): (k: nat)
    ensures k <= |s| && ColonFree(s[..k]) && (k < |s| ==> s[k] == ':')
  {
    if s == "" || s[0] == ':' then 0 else 1 + ColonOf(s[1..])
  }

  lemma {:induction false} SplitJoin(parts: seq<string>)
    requires parts != [] && AllColonFree(parts)
    ensures Split(Join(parts)) == parts
    decreases |parts|
  {
    var s := Join(parts);
    var k := ColonOf(s);
    if |parts| == 1 {
      assert k == |s|;
    } else {
      ColonAt(parts[0], Join(parts[1..]));
      assert k == |parts[0]|;
      SplitJoin(parts[1..]);
    }
  }

  const TypeNames: map<EventType, string> :=
    map[Trade := "trade", Create := "create", Migrate := "migrate", Swap := "swap",
        CreatePool := "create_pool", Deposit := "deposit", Withdraw := "withdraw"]

  /** Between its colons the id of an event has the chain, the protocol, the type, the signature, the place,
   * and the outer index, followed for an inner instruction by the inner one. */
  lemma {:induction false} IdReads(protocol: Protocol, eventType: EventType, signature: string, path: Path)
    requires ColonFree(signature)
    ensures eventType in TypeNames
    ensures
      Split(BuildServiceEventId(protocol, eventType, signature, path)) ==
      ["solana", if protocol.Pumpfun? then "pumpfun" else "pumpamm", TypeNames[eventType], signature] +
      match path.innerIndex
      case Some(inner) => ["inner", Decimal(path.outerIndex), Decimal(inner)]
      case None => ["outer", Decimal(path.outerIndex)]
  {
    IdIsJoin(protocol, eventType, signature, path);
    PartsColonFree(protocol, eventType, signature, path);
    SplitJoin(Parts(protocol, eventType, signature, path));
    NameIs(eventType);
  }

  lemma {:induction false} NameIs(eventType: EventType)
    ensures eventType in TypeNames && TypeNames[eventType] == TypeName(eventType)
  {
  }

  /** The id is injective in protocol, type, signature and path, for signatures without a colon. */
  lemma {:induction false} IdIsInjective(p: Protocol, t: EventType, s: string, path: Path, q: Protocol, u: EventType,
                                         r: string, other: Path)
    requires ColonFree(s) && ColonFree(r)
    requires BuildServiceEventId(p, t, s, path) == BuildServiceEventId(q, u, r, other)
    ensures p == q && t == u && s == r && path == other
  {
    IdIsJoin(p, t, s, path);
    IdIsJoin(q, u, r, other);
    PartsColonFree(p, t, s, path);
    PartsColonFree(q, u, r, other);
    JoinIsInjective(Parts(p, t, s, path), Parts(q, u, r, other));
    PartsDiffer(p, t, s, path, q, u, r, other);
  }

  lemma {:induction false} PartsDiffer(p: Protocol, t: EventType, s: string, path: Path, q: Protocol, u: EventType,
                                       r: string, other: Path)
    requires Parts(p, t, s, path) == Parts(q, u, r, other)
    ensures p == q && t == u && s == r && path == other
  {
    var a, b := Parts(p, t, s, path), Parts(q, u, r, other);
    assert a[1] == ProtocolName(p) && b[1] == ProtocolName(q) && a[2] == TypeName(t) && b[2] == TypeName(u);
    assert a[3] == s && b[3] == r && a[5] == Decimal(path.outerIndex) && b[5] == Decimal(other.outerIndex);
    NamesDiffer(p, q, t, u);
    DecimalReads(path.outerIndex);
    DecimalReads(other.outerIndex);
    assert |a| == if path.innerIndex.Some? then 7 else 6;
    assert |b| == if other.innerIndex.Some? then 7 else 6;
    if path.innerIndex.Some? {
      assert a[6] == Decimal(path.innerIndex.value) && b[6] == Decimal(other.innerIndex.value);
      DecimalReads(path.innerIndex.value);
      DecimalReads(other.innerIndex.value);
    }
  }

  // ----- The ids of one transaction -----

  function PathOf(source: Source): Path {
    match source
    case Outer(outer) => Path(outer, None)
    case Inner(outer, inner) => Path(outer, Some(inner))
  }

  /** No two parsed events of a transaction get the same id, whatever their kinds. */
  lemma {:induction false} IdsAreDistinct(view: View, signature: string, i: nat, j: nat, p: Protocol, t: EventType,
                                          q: Protocol, u: EventType)
    requires ColonFree(signature)
    requires
      var parsed := Exec(Init, Schedule(view)).parsed;
      i < j < |parsed|
    ensures
      var parsed := Exec(Init, Schedule(view)).parsed;
      BuildServiceEventId(p, t, signature, PathOf(parsed[i].invocation.source))
        != BuildServiceEventId(q, u, signature, PathOf(parsed[j].invocation.source))
  {
    var parsed := Exec(Init, Schedule(view)).parsed;
    ParsedInOrder(view);
    var a, b := SourcesOf(parsed)[i], SourcesOf(parsed)[j];
    assert Before(a, b);
    if BuildServiceEventId(p, t, signature, PathOf(a)) == BuildServiceEventId(q, u, signature, PathOf(b)) {
      IdIsInjective(p, t, signature, PathOf(a), q, u, signature, PathOf(b));
    }
  }
}
