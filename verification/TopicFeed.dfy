/** What each topic gets of a run of deliveries, told from the deliveries alone. */
module TopicFeed {
  import opened Options
  import opened ReadModel
  import opened Projector
  import opened Ingest

  /** The six kinds of events the backend takes in. */
  predicate Known(payload: Payload) {
    || payload.PumpfunTrade? || payload.PumpfunCreate? || payload.PumpfunMigrate?
    || payload.PumpAmmSwap? || payload.PumpAmmCreatePool? || payload.PumpAmmLiquidity?
  }

  predicate NamesItsMint(event: Envelope) { event.refMint.Some? && event.refMint.value != "" }

  /** The mint of a curve event. */
  function CurveMint(payload: Payload): Option<string> {
    match payload
    case PumpfunTrade(p) => Some(p.mint)
    case PumpfunCreate(p) => Some(p.mint)
    case PumpfunMigrate(p) => Some(p.mint)
    case _ => None
  }

  /** A pool is about its base mint, unless that is not named, or is SOL while the quote mint is named: then
   * it is about its quote mint. */
  predicate PoolIsAbout(baseMint: string, quoteMint: string, mint: string) {
    mint == if baseMint == "" || (baseMint == SolMint && quoteMint != "") then quoteMint else baseMint
  }

  /** The token an event is about: the one it names itself; else a curve event is about its own mint, and a
   * pool event about one of the two of its pool. */
  predicate About(event: Envelope, payload: Payload, mint: string) {
    && mint != ""
    && if NamesItsMint(event) then event.refMint == Some(mint)
       else
         || CurveMint(payload) == Some(mint)
         || (PairOf(payload).Some? && PoolIsAbout(PairOf(payload).value.0, PairOf(payload).value.1, mint))
  }

  /** The delivery's insert takes effect, if its event is not there yet. */
  predicate Lands(d: Delivery) { Known(d.payload) && (d.fault.NoFault? || d.fault == InsertFails(true)) }

  /** No earlier delivery of the same event has landed. */
  predicate IsNew(earlier: seq<Delivery>, d: Delivery) {
    forall j | 0 <= j < |earlier| && Lands(earlier[j]) :: earlier[j].event.eventId != d.event.eventId
  }

  /** The ids of the deliveries that were stored, in order. */
  function StoredIds(deliveries: seq<Delivery>): seq<nat> {
    if deliveries == [] then []
    else
      var init, d := deliveries[..|deliveries| - 1], deliveries[|deliveries| - 1];
      StoredIds(init) + if Lands(d) && IsNew(init, d) then [d.logId] else []
  }

  /** The ids of the deliveries that were stored and answered for, in order. */
  function HeardIds(deliveries: seq<Delivery>): seq<nat> {
    if deliveries == [] then []
    else
      var init, d := deliveries[..|deliveries| - 1], deliveries[|deliveries| - 1];
      HeardIds(init) + if Known(d.payload) && d.fault.NoFault? && IsNew(init, d) then [d.logId] else []
  }

  /** Those about one token. */
  function HeardAbout(deliveries: seq<Delivery>, mint: string): seq<nat> {
    if deliveries == [] then []
    else
      var init, d := deliveries[..|deliveries| - 1], deliveries[|deliveries| - 1];
      HeardAbout(init, mint) +
        (if Known(d.payload) && d.fault.NoFault? && IsNew(init, d) && About(d.event, d.payload, mint)
         then [d.logId] else [])
  }

  lemma {:induction false} ExtractsWhatItIsAbout(event: Envelope, payload: Payload, mint: string)
    requires mint != "" && Known(payload)
    ensures ExtractMint(event, payload) == mint <==> About(event, payload, mint)
  {
  }

  lemma {:induction false} StoredWhenLanded(deliveries: seq<Delivery>, eventId: string)
    ensures eventId in Ingest.Run(deliveries).stored <==>
            exists j | 0 <= j < |deliveries| :: Lands(deliveries[j]) && deliveries[j].event.eventId == eventId
  {
    if deliveries == [] {
    } else {
      var init, d := deliveries[..|deliveries| - 1], deliveries[|deliveries| - 1];
      StoredWhenLanded(init, eventId);
      assert forall j | 0 <= j < |init| :: init[j] == deliveries[j];
      if eventId in Ingest.Run(init).stored {
        var j :| 0 <= j < |init| && Lands(init[j]) && init[j].event.eventId == eventId;
        assert Lands(deliveries[j]);
      }
      assert deliveries[|init|] == d;
    }
  }

  lemma {:induction false} StoredIffNotNew(init: seq<Delivery>, d: Delivery)
    ensures d.event.eventId in Ingest.Run(init).stored <==> !IsNew(init, d)
  {
    StoredWhenLanded(init, d.event.eventId);
  }

  lemma {:induction false} TokenTopicsDiffer(a: string, b: string)
    ensures "token:" + a == "token:" + b <==> a == b
    ensures "token:" + a != GlobalTopic
  {
    var s, t := "token:" + a, "token:" + b;
    assert s[0] == 't' && GlobalTopic[0] == 'g';
    assert s[6..] == a && t[6..] == b;
  }

  lemma {:induction false} AfterFeeds(s: State, init: seq<Delivery>, d: Delivery, mint: string)
    requires mint != "" && (d.event.eventId in s.stored <==> !IsNew(init, d))
    ensures PublishedTo(After(s, d).published, "token:" + mint)
         == PublishedTo(s.published, "token:" + mint) +
            (if Known(d.payload) && d.fault.NoFault? && IsNew(init, d) && About(d.event, d.payload, mint)
             then [d.logId] else [])
    ensures PublishedTo(After(s, d).published, GlobalTopic)
         == PublishedTo(s.published, GlobalTopic) +
            (if Known(d.payload) && d.fault.NoFault? && IsNew(init, d) then [d.logId] else [])
    ensures After(s, d).log == s.log + if Lands(d) && IsNew(init, d) then [d.logId] else []
  {
    if Known(d.payload) && d.fault.NoFault? && IsNew(init, d) {
      var about := ExtractMint(d.event, d.payload);
      MessagesTo(s.published, about, d.logId, "token:" + mint);
      MessagesTo(s.published, about, d.logId, GlobalTopic);
      TokenTopicsDiffer(about, mint);
      TokenTopicsDiffer(mint, about);
      ExtractsWhatItIsAbout(d.event, d.payload, mint);
    } else {
      assert After(s, d).published == s.published;
      assert PublishedTo(s.published, GlobalTopic) + [] == PublishedTo(s.published, GlobalTopic);
      assert PublishedTo(s.published, "token:" + mint) + [] == PublishedTo(s.published, "token:" + mint);
    }
  }

  /** In every run of deliveries, whatever fails and however often an event is delivered: a token's topic
   * gets exactly the ids of the new events about the token that were stored and answered for, in the order
   * of the deliveries; the global topic gets those of all new events; and the log holds the ids of all that
   * were stored. */
  lemma {:induction false} TopicsGetTheirEvents(deliveries: seq<Delivery>, mint: string)
    requires mint != ""
    ensures
      var s := Ingest.Run(deliveries);
      && PublishedTo(s.published, "token:" + mint) == HeardAbout(deliveries, mint)
      && PublishedTo(s.published, GlobalTopic) == HeardIds(deliveries)
      && s.log == StoredIds(deliveries)
  {
    if deliveries == [] {
    } else {
      var init, d := deliveries[..|deliveries| - 1], deliveries[|deliveries| - 1];
      TopicsGetTheirEvents(init, mint);
      StoredIffNotNew(init, d);
      AfterFeeds(Ingest.Run(init), init, d, mint);
    }
  }

  /** No other topic gets anything. */
  lemma {:induction false} OtherTopicsAreSilent(deliveries: seq<Delivery>, topic: string)
    requires topic != GlobalTopic && !exists mint :: mint != "" && topic == "token:" + mint
    ensures PublishedTo(Ingest.Run(deliveries).published, topic) == []
  {
    if deliveries == [] {
    } else {
      var init, d := deliveries[..|deliveries| - 1], deliveries[|deliveries| - 1];
      OtherTopicsAreSilent(init, topic);
      MessagesTo(Ingest.Run(init).published, ExtractMint(d.event, d.payload), d.logId, topic);
    }
  }

  // ----- The topic of an event and the rows it is projected to -----

  /** The mint a statement is about; closing a market names none. */
  function MintOf(op: Op): Option<string> {
    match op
    case UpsertToken(r) => Some(r.mint)
    case UpsertMetadata(r) => Some(r.mint)
    case UpsertMarket(r) => Some(r.mint)
    case CloseMarket(_, _) => None
    case InsertTrade(r) => Some(r.columns.mint)
    case InsertActivity(r) => Some(r.columns.mint)
  }

  /** All rows of an event are about one mint, and it has one. */
  ghost predicate RowsAreAbout(ops: seq<Op>, mint: string) {
    && (exists i | 0 <= i < |ops| :: MintOf(ops[i]) == Some(mint))
    && forall i | 0 <= i < |ops| :: MintOf(ops[i]) == None || MintOf(ops[i]) == Some(mint)
  }

  /** A curve event is projected to rows of its own mint; its topic is that of the very mint if and only if
   * the event names no other one. */
  lemma {:induction false} CurveTopicIsRowMintIff(event: Envelope, payload: Payload)
    requires CurveMint(payload).Some? && CurveMint(payload).value != ""
    ensures Projection(event, payload).Ok?
    ensures RowsAreAbout(Projection(event, payload).value, CurveMint(payload).value)
    ensures About(event, payload, CurveMint(payload).value) <==>
            !NamesItsMint(event) || event.refMint == CurveMint(payload)
  {
    var ops := Projection(event, payload).value;
    assert MintOf(ops[|ops| - 1]) == CurveMint(payload);
  }

  /** A pool event that can be projected is projected to rows of the very mint whose topic it goes to. */
  lemma {:induction false} PoolTopicIsRowMint(event: Envelope, payload: Payload, mint: string)
    requires PairOf(payload).Some? && Projection(event, payload).Ok? && About(event, payload, mint)
    ensures RowsAreAbout(Projection(event, payload).value, mint)
  {
    TopicIsTrackedMintIff(event, payload);
    ExtractsWhatItIsAbout(event, payload, mint);
    var ops := Projection(event, payload).value;
    assert MintOf(ops[|ops| - 1]) == Some(mint);
  }
}
