/** Taking one decoded event in: it is inserted into the log unless its id is there already, and only a new
 * event is published, to its token's topic and to the global one. */
module Ingest {
  import opened Options
  import opened LogOrder
  import opened ReadModel
  import opened Projector

  datatype Message = Message(topic: string, logId: nat)

  const GlobalTopic := "global"

  function ResolveNonSolMint(baseMint: string, quoteMint: string): string {
    if baseMint == SolMint && quoteMint != "" then quoteMint
    else if quoteMint == SolMint && baseMint != "" then baseMint
    else if baseMint != "" then baseMint
    else quoteMint
  }

  function ExtractMint(event: Envelope, payload: Payload): string {
    if event.refMint.Some? && event.refMint.value != "" then event.refMint.value
    else
      match payload
      case PumpfunTrade(p) => p.mint
      case PumpfunCreate(p) => p.mint
      case PumpfunMigrate(p) => p.mint
      case PumpAmmSwap(p) => ResolveNonSolMint(p.baseMint, p.quoteMint)
      case PumpAmmCreatePool(p) => ResolveNonSolMint(p.baseMint, p.quoteMint)
      case PumpAmmLiquidity(p) => ResolveNonSolMint(p.baseMint, p.quoteMint)
      case OtherPayload => ""
  }

  function Messages(mint: string, logId: nat): seq<Message> {
    (if mint != "" then [Message("token:" + mint, logId)] else []) + [Message(GlobalTopic, logId)]
  }

  /** What can go wrong with one event besides its payload: it does not encode, or the insert fails, be it
   * that nothing was stored or that the row was stored and only the answer got lost. */
  datatype Fault = NoFault | EncodingFails | InsertFails(stored: bool)

  datatype Error = UnsupportedPayload | EncodePayload | InsertEvent

  /** The ids by event, the ids in the order of the log, the messages published so far, and the ids of new
   * rows whose insert was reported as failed. */
  datatype State = State(stored: map<string, nat>, log: seq<nat>, published: seq<Message>, unheard: set<nat>)

  const Empty := State(map[], [], [], {})

  function Store(s: State, eventId: string, logId: nat): State {
    if eventId in s.stored then s
    else s.(stored := s.stored[eventId := logId], log := s.log + [logId])
  }

  /** What one event does; `logId` is the id the database gives to a new row. */
  function Handle(s: State, event: Envelope, payload: Payload, logId: nat, fault: Fault): State {
    if payload.OtherPayload? || fault.EncodingFails? then s
    else
      match fault
      case InsertFails(stored) =>
        if stored && event.eventId !in s.stored
        then Store(s, event.eventId, logId).(unheard := s.unheard + {logId})
        else s
      case _ =>
        if event.eventId in s.stored then s
        else Store(s, event.eventId, logId).(published := s.published + Messages(ExtractMint(event, payload), logId))
  }

  class Service {
    var stored: map<string, nat>
    var log: seq<nat>
    var published: seq<Message>
    ghost var unheard: set<nat>

    ghost function Contents(): State
      reads this
    {
      State(stored, log, published, unheard)
    }

    constructor ()
      ensures Contents() == Empty
    {
      stored, log, published, unheard := map[], [], [], {};
    }

    /** The store's insert: None when it fails, whether or not it has taken effect. */
    method InsertServiceEvent(eventId: string, logId: nat, fault: Fault) returns (inserted: Option<bool>)
      modifies this`stored, this`log, this`unheard
      ensures inserted == if fault.InsertFails? then None else Some(eventId !in old(stored))
      ensures
        var takesEffect := eventId !in old(stored) && fault != InsertFails(false);
        && stored == (if takesEffect then old(stored)[eventId := logId] else old(stored))
        && log == (if takesEffect then old(log) + [logId] else old(log))
        && unheard == old(unheard) + if takesEffect && fault.InsertFails? then {logId} else {}
    {
      inserted := if fault.InsertFails? then None else Some(eventId !in stored);
      if eventId !in stored && fault != InsertFails(false) {
        stored := stored[eventId := logId];
        log := log + [logId];
        if fault.InsertFails? {
          unheard := unheard + {logId};
        }
      }
    }

    method HandleDecodedEvent(event: Envelope, payload: Payload, logId: nat,
                              fault: Fault) returns (error: Option<Error>)
      modifies this
      ensures error == if payload.OtherPayload? then Some(UnsupportedPayload)
                       else if fault.EncodingFails? then Some(EncodePayload)
                       else if fault.InsertFails? then Some(InsertEvent) else None
      ensures Contents() == Handle(old(Contents()), event, payload, logId, fault)
    {
      if payload.OtherPayload? {
        return Some(UnsupportedPayload);
      }
      if fault.EncodingFails? {
        return Some(EncodePayload);
      }
      var inserted := InsertServiceEvent(event.eventId, logId, fault);
      if inserted.None? {
        return Some(InsertEvent);
      }
      if inserted.value {
        var mint := ExtractMint(event, payload);
        if mint != "" {
          published := published + [Message("token:" + mint, logId)];
        }
        published := published + [Message(GlobalTopic, logId)];
      }
      error := None;
    }
  }

  // ----- Runs of one ingest loop -----

  datatype Delivery = Delivery(event: Envelope, payload: Payload, logId: nat, fault: Fault)

  function After(s: State, d: Delivery): State { Handle(s, d.event, d.payload, d.logId, d.fault) }

  function Run(deliveries: seq<Delivery>): State {
    if deliveries == [] then Empty
    else After(Run(deliveries[..|deliveries| - 1]), deliveries[|deliveries| - 1])
  }

  /** The ids the database gives out ascend, whether or not they are used. */
  predicate IdsAscend(deliveries: seq<Delivery>) {
    forall i, j | 0 <= i < j < |deliveries| :: deliveries[i].logId < deliveries[j].logId
  }

  /** The ids published to a topic, in order. */
  function PublishedTo(published: seq<Message>, topic: string): seq<nat> {
    if published == [] then []
    else
      var m := published[|published| - 1];
      var rest := PublishedTo(published[..|published| - 1], topic);
      if m.topic == topic then rest + [m.logId] else rest
  }

  lemma {:induction false} PublishedSnoc(published: seq<Message>, m: Message, topic: string)
    ensures PublishedTo(published + [m], topic) ==
              if m.topic == topic then PublishedTo(published, topic) + [m.logId] else PublishedTo(published, topic)
  {
  }

  lemma {:induction false} MessagesTo(published: seq<Message>, mint: string, logId: nat, topic: string)
    ensures PublishedTo(published + Messages(mint, logId), topic) ==
              if topic == GlobalTopic || (mint != "" && topic == "token:" + mint)
              then PublishedTo(published, topic) + [logId]
              else PublishedTo(published, topic)
  {
    var token := Message("token:" + mint, logId);
    assert token.topic[0] == 't' && GlobalTopic[0] == 'g';
    if mint != "" {
      PublishedSnoc(published, token, topic);
      PublishedSnoc(published + [token], Message(GlobalTopic, logId), topic);
      assert published + Messages(mint, logId) == published + [token] + [Message(GlobalTopic, logId)];
    } else {
      PublishedSnoc(published, Message(GlobalTopic, logId), topic);
      assert published + Messages(mint, logId) == published + [Message(GlobalTopic, logId)];
    }
  }

  /** None of the ids is beyond the last delivery's. */
  predicate UpToLast(ids: seq<nat>, deliveries: seq<Delivery>) {
    if deliveries == [] then ids == []
    else forall i | 0 <= i < |ids| :: ids[i] <= deliveries[|deliveries| - 1].logId
  }

  lemma {:induction false} UpToNext(ids: seq<nat>, init: seq<Delivery>, d: Delivery)
    requires UpToLast(ids, init) && Increasing(ids) && IdsAscend(init + [d])
    ensures UpToLast(ids, init + [d]) && UpToLast(ids + [d.logId], init + [d]) && Increasing(ids + [d.logId])
  {
    if init != [] {
      var all := init + [d];
      assert all[|init| - 1] == init[|init| - 1] && all[|init|] == d;
    }
  }

  lemma {:induction false} HandlePublishes(s: State, d: Delivery, topic: string)
    ensures
      var before, after := PublishedTo(s.published, topic), PublishedTo(After(s, d).published, topic);
      after == before || after == before + [d.logId]
  {
    MessagesTo(s.published, ExtractMint(d.event, d.payload), d.logId, topic);
  }

  /** Every topic gets ascending ids. */
  lemma {:induction false} TopicsAscend(deliveries: seq<Delivery>, topic: string)
    requires IdsAscend(deliveries)
    ensures Increasing(PublishedTo(Run(deliveries).published, topic))
    ensures UpToLast(PublishedTo(Run(deliveries).published, topic), deliveries)
  {
    if deliveries == [] {
    } else {
      var init, d := deliveries[..|deliveries| - 1], deliveries[|deliveries| - 1];
      assert deliveries == init + [d];
      TopicsAscend(init, topic);
      UpToNext(PublishedTo(Run(init).published, topic), init, d);
      HandlePublishes(Run(init), d, topic);
    }
  }

  /** The log ascends as well. */
  lemma {:induction false} LogAscends(deliveries: seq<Delivery>)
    requires IdsAscend(deliveries)
    ensures Increasing(Run(deliveries).log) && UpToLast(Run(deliveries).log, deliveries)
    ensures forall id | id in Run(deliveries).unheard :: id in Run(deliveries).log
  {
    if deliveries == [] {
    } else {
      var init, d := deliveries[..|deliveries| - 1], deliveries[|deliveries| - 1];
      assert deliveries == init + [d];
      LogAscends(init);
      UpToNext(Run(init).log, init, d);
      assert forall id | id in Run(init).log :: id in Run(deliveries).log;
    }
  }

  function Without(ids: seq<nat>, gone: set<nat>): seq<nat> {
    if ids == [] then []
    else
      var rest, id := Without(ids[..|ids| - 1], gone), ids[|ids| - 1];
      if id in gone then rest else rest + [id]
  }

  lemma {:induction false} WithoutOther(ids: seq<nat>, gone: set<nat>, id: nat)
    requires id !in ids
    ensures Without(ids, gone + {id}) == Without(ids, gone)
  {
    if ids == [] {
    } else {
      WithoutOther(ids[..|ids| - 1], gone, id);
    }
  }

  lemma {:induction false} WithoutSnoc(ids: seq<nat>, gone: set<nat>, id: nat)
    ensures Without(ids + [id], gone) == if id in gone then Without(ids, gone) else Without(ids, gone) + [id]
  {
  }

  lemma {:induction false} NewIdIsNew(init: seq<Delivery>, d: Delivery)
    requires IdsAscend(init + [d])
    ensures d.logId !in Run(init).log && d.logId !in Run(init).unheard
  {
    var all := init + [d];
    assert IdsAscend(init) by { assert forall i | 0 <= i < |init| :: init[i] == all[i]; }
    LogAscends(init);
    if init != [] {
      assert all[|init| - 1] == init[|init| - 1] && all[|init|] == d;
    }
  }

  ghost predicate GlobalOk(s: State) {
    PublishedTo(s.published, GlobalTopic) == Without(s.log, s.unheard)
  }

  lemma {:induction false} AfterKeepsGlobal(s: State, d: Delivery)
    requires GlobalOk(s) && d.logId !in s.log && d.logId !in s.unheard
    ensures GlobalOk(After(s, d))
  {
    var s' := After(s, d);
    if s' != s {
      MessagesTo(s.published, ExtractMint(d.event, d.payload), d.logId, GlobalTopic);
      WithoutSnoc(s.log, s'.unheard, d.logId);
      WithoutOther(s.log, s.unheard, d.logId);
      assert s'.log == s.log + [d.logId];
    }
  }

  lemma {:induction false} GlobalIsHeardLog(deliveries: seq<Delivery>)
    requires IdsAscend(deliveries)
    ensures GlobalOk(Run(deliveries))
  {
    if deliveries == [] {
    } else {
      var init, d := deliveries[..|deliveries| - 1], deliveries[|deliveries| - 1];
      assert deliveries == init + [d];
      assert IdsAscend(init) by { assert forall i | 0 <= i < |init| :: init[i] == deliveries[i]; }
      GlobalIsHeardLog(init);
      NewIdIsNew(init, d);
      AfterKeepsGlobal(Run(init), d);
    }
  }

  lemma {:induction false} WithoutIsShorter(ids: seq<nat>, gone: set<nat>)
    ensures |Without(ids, gone)| <= |ids|
    ensures Without(ids, gone) == ids <==> forall id | id in ids :: id !in gone
  {
    if ids == [] {
    } else {
      var init, id := ids[..|ids| - 1], ids[|ids| - 1];
      WithoutIsShorter(init, gone);
      assert ids == init + [id];
      if id !in gone && Without(ids, gone) == ids {
        assert Without(init, gone) == (Without(init, gone) + [id])[..|init|] == init;
      }
    }
  }

  /** One ingest loop publishes the log: whatever is delivered, and however often, the global topic gets the
   * ids of the log in order, each once, but for those of new rows whose insert was reported as failed; so
   * it gets exactly the log if and only if there is no such row.  Every topic gets ascending ids. */
  lemma {:induction false} PublishesTheLog(deliveries: seq<Delivery>, topic: string)
    requires IdsAscend(deliveries)
    ensures
      var s := Run(deliveries);
      && Increasing(s.log) && PublishedTo(s.published, GlobalTopic) == Without(s.log, s.unheard)
      && (PublishedTo(s.published, GlobalTopic) == s.log <==> s.unheard == {})
      && Increasing(PublishedTo(s.published, topic))
  {
    GlobalIsHeardLog(deliveries);
    TopicsAscend(deliveries, topic);
    LogAscends(deliveries);
    WithoutIsShorter(Run(deliveries).log, Run(deliveries).unheard);
  }

  /** Delivering an event again once its row is stored changes nothing, whether or not it was published. */
  lemma {:induction false} RedeliveryIsSilent(s: State, d: Delivery, again: Delivery)
    requires again.event.eventId == d.event.eventId && d.event.eventId in After(s, d).stored
    ensures After(After(s, d), again) == After(s, d)
  {
  }

  /** The case: the insert stores the row and its answer is lost.  However often the event is delivered again,
   * it is in the log and never published. */
  lemma {:induction false} LostAnswer(event: Envelope, payload: Payload, logId: nat, again: seq<Delivery>)
    requires !payload.OtherPayload?
    requires forall i | 0 <= i < |again| :: again[i].event.eventId == event.eventId
    ensures Run([Delivery(event, payload, logId, InsertFails(true))] + again)
         == State(map[event.eventId := logId], [logId], [], {logId})
  {
    var first := Delivery(event, payload, logId, InsertFails(true));
    if again == [] {
      assert [first] + again == [first] && [first][..0] == [];
      assert [] + [logId] == [logId] && map[][event.eventId := logId] == map[event.eventId := logId];
    } else {
      var init := again[..|again| - 1];
      assert ([first] + again)[..|[first] + again| - 1] == [first] + init;
      LostAnswer(event, payload, logId, init);
    }
  }

  // ----- The topic of an event and the token it is projected to -----

  /** The base and quote mint of a pool event. */
  function PairOf(payload: Payload): Option<(string, string)> {
    match payload
    case PumpAmmSwap(p) => Some((p.baseMint, p.quoteMint))
    case PumpAmmCreatePool(p) => Some((p.baseMint, p.quoteMint))
    case PumpAmmLiquidity(p) => Some((p.baseMint, p.quoteMint))
    case _ => None
  }

  /** A pool event is published under the very mint it is projected to if and only if it names its mint or
   * trades against SOL or names no mint at all; otherwise it goes to the base mint's topic, or the quote
   * mint's, and cannot be projected. */
  lemma {:induction false} TopicIsTrackedMintIff(event: Envelope, payload: Payload)
    requires PairOf(payload).Some?
    ensures
      var pair := PairOf(payload).value;
      ExtractMint(event, payload) == TrackedMint(event, pair.0, pair.1)
      <==> (event.refMint.Some? && event.refMint.value != "")
           || (pair.0 == SolMint && pair.1 != "") || (pair.1 == SolMint && pair.0 != "")
           || (pair.0 == "" && pair.1 == "")
    ensures
      var pair := PairOf(payload).value;
      ExtractMint(event, payload) != TrackedMint(event, pair.0, pair.1) ==> Projection(event, payload).Err?
  {
  }
}
