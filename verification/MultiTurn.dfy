/**
 The multi-turn workload generator: clients hold conversations of a fixed number of
 rounds with a server.  A sender thread moves requests from the ready queue into flight,
 a handler thread turns responses into the next round's requests.

 `State` and `Apply` describe the two threads and the server as a state machine whose
 actions may interleave freely; every request is assumed to succeed.  The class
 `WorkloadGenerator` performs the same actions on its own fields.
 */
module MultiTurn {
  import opened Options

  /** A string, kept as the concatenations that built it; `Render` gives its characters. */
  datatype Text = Piece(chars: string) | Cat(left: Text, right: Text)

  function Render(t: Text): string {
    match t
    case Piece(chars) => chars
    case Cat(left, right) => Render(left) + Render(right)
  }

  /** A queue entry: the payload of a request, or the text of a response. */
  datatype Item = Item(client: nat, text: Text)

  datatype Record = Record(round: nat, history: Text)

  /** Where the sender's loop stands: at its admission test, past it, or at its exit test. */
  datatype Sender = AtCheck | MayPop | AtExit | Stopped

  /** Where a client is. */
  datatype Place = Ready | Flight | Replied | InHand | Done

  /** The finished turns of a conversation: fresh input, payload sent, reply received. */
  datatype Log = Begin | Said(before: Log, input: Text, payload: Text, reply: Text)

  /** A conversation: its finished turns, the input of the next one, the payload last sent. */
  datatype Chat = Chat(log: Log, input: Text, payload: Text)

  datatype Config = Config(clients: nat, rounds: nat, maxParallel: nat)

  /** `places` and `chats` only record what happens; no step depends on them. */
  datatype State = State(
    ready: seq<Item>, inflight: seq<Item>, responses: seq<Item>, handling: Option<nat>,
    records: seq<Record>, candidates: seq<Text>,
    sent: nat, completed: nat, pbar: nat, sender: Sender,
    places: seq<Place>, chats: seq<Chat>)

  datatype Action =
    | Check
    | Pop(index: nat)
    | PopNothing
    | ExitTest
    | Answer(index: nat, text: Text)
    | Take
    | Requeue

  function Total(cfg: Config): nat {
    cfg.clients * cfg.rounds
  }

  /** The state after `__init__`; one input per client and round has been sampled. */
  function Initial(cfg: Config, inputs: seq<Text>): State
    requires |inputs| == Total(cfg) && cfg.rounds >= 1
  {
    assert cfg.clients <= Total(cfg) by { assert cfg.clients * 1 <= cfg.clients * cfg.rounds; }
    State(seq(cfg.clients, i requires 0 <= i < cfg.clients => Item(i, inputs[i])), [], [], None,
          seq(cfg.clients, i requires 0 <= i < cfg.clients => Record(0, inputs[i])),
          inputs[cfg.clients..], 0, 0, 0, AtCheck,
          seq(cfg.clients, _ => Ready),
          seq(cfg.clients, i requires 0 <= i < cfg.clients => Chat(Begin, inputs[i], inputs[i])))
  }

  predicate Sized(s: State) {
    |s.records| == |s.places| == |s.chats|
  }

  predicate Enabled(cfg: Config, s: State, a: Action) {
    && Sized(s)
    && match a
       case Check => s.sender.AtCheck?
       case Pop(i) => s.sender.MayPop? && i < |s.ready| && s.ready[i].client < |s.records|
       case PopNothing => s.sender.MayPop? && s.ready == []
       case ExitTest => s.sender.AtExit?
       case Answer(i, _) => !s.sender.Stopped? && i < |s.inflight| && s.inflight[i].client < |s.records|
       case Take => s.handling.None? && s.responses != [] && s.responses[0].client < |s.records|
       case Requeue => s.handling.Some? && s.handling.value < |s.records| && s.candidates != []
  }

  function Without<T>(s: seq<T>, i: nat): seq<T>
    requires i < |s|
  {
    s[..i] + s[i + 1..]
  }

  function Apply(cfg: Config, s: State, a: Action): State
    requires Enabled(cfg, s, a)
  {
    match a
    case Check =>
      if s.sent < s.completed + cfg.maxParallel then s.(sender := MayPop) else s
    case Pop(i) =>
      var x := s.ready[i];
      s.(ready := Without(s.ready, i), inflight := s.inflight + [x], sent := s.sent + 1, sender := AtExit,
         places := s.places[x.client := Flight], chats := s.chats[x.client := s.chats[x.client].(payload := x.text)])
    case PopNothing => s.(sender := AtExit)
    case ExitTest => s.(sender := if s.pbar == Total(cfg) then Stopped else AtCheck)
    case Answer(i, text) =>
      var c := s.inflight[i].client;
      s.(inflight := Without(s.inflight, i), pbar := s.pbar + 1, responses := s.responses + [Item(c, text)],
         places := s.places[c := Replied])
    case Take =>
      var x := s.responses[0];
      var rec := Record(s.records[x.client].round + 1, Cat(s.records[x.client].history, x.text));
      var chat := s.chats[x.client];
      var more := rec.round < cfg.rounds;
      s.(responses := s.responses[1..], records := s.records[x.client := rec], completed := s.completed + 1,
         handling := if more then Some(x.client) else None,
         places := s.places[x.client := if more then InHand else Done],
         chats := s.chats[x.client := chat.(log := Said(chat.log, chat.input, chat.payload, x.text))])
    case Requeue =>
      var c := s.handling.value;
      var input := s.candidates[|s.candidates| - 1];
      var rec := s.records[c].(history := Cat(s.records[c].history, input));
      s.(handling := None, candidates := s.candidates[..|s.candidates| - 1], records := s.records[c := rec],
         ready := s.ready + [Item(c, rec.history)],
         places := s.places[c := Ready], chats := s.chats[c := s.chats[c].(input := input)])
  }

  // ----- counting -----

  function Occ(items: seq<Item>, c: nat): nat {
    if items == [] then 0 else (if items[0].client == c then 1 else 0) + Occ(items[1..], c)
  }

  lemma {:induction false} OccConcat(a: seq<Item>, b: seq<Item>, c: nat)
    ensures Occ(a + b, c) == Occ(a, c) + Occ(b, c)
  {
    if a == [] {
      assert a + b == b;
    } else {
      assert (a + b)[1..] == a[1..] + b;
      OccConcat(a[1..], b, c);
    }
  }

  lemma OccAppend(items: seq<Item>, x: Item, c: nat)
    ensures Occ(items + [x], c) == Occ(items, c) + if x.client == c then 1 else 0
  {
    OccConcat(items, [x], c);
    assert Occ([x], c) == if x.client == c then 1 else 0;
  }

  lemma {:induction false} OccWithout(items: seq<Item>, i: nat, c: nat)
    requires i < |items|
    ensures Occ(items, c) == Occ(Without(items, i), c) + if items[i].client == c then 1 else 0
  {
    if i == 0 {
      assert Without(items, 0) == items[1..];
    } else {
      assert Without(items, i)[1..] == Without(items[1..], i - 1);
      OccWithout(items[1..], i - 1, c);
    }
  }

  lemma {:induction false} OccMember(items: seq<Item>, i: nat)
    requires i < |items|
    ensures Occ(items, items[i].client) >= 1
  {
    if i == 0 {
    } else {
      OccMember(items[1..], i - 1);
    }
  }

  function Count(places: seq<Place>, p: Place): nat {
    if places == [] then 0 else Count(places[..|places| - 1], p) + if places[|places| - 1] == p then 1 else 0
  }

  lemma {:induction false} CountUpdate(places: seq<Place>, c: nat, q: Place, p: Place)
    requires c < |places|
    ensures Count(places[c := q], p) + (if places[c] == p then 1 else 0) == Count(places, p) + if q == p then 1 else 0
  {
    var n := |places| - 1;
    if c == n {
      assert places[c := q][..n] == places[..n];
    } else {
      assert places[c := q][..n] == places[..n][c := q];
      CountUpdate(places[..n], c, q, p);
    }
  }

  /** Rounds this client still has to complete. */
  function Left(r: Record, rounds: nat): nat {
    if r.round < rounds then rounds - r.round else 0
  }

  function Remaining(records: seq<Record>, rounds: nat): nat {
    if records == [] then 0
    else Remaining(records[..|records| - 1], rounds) + Left(records[|records| - 1], rounds)
  }

  lemma {:induction false} RemainingUpdate(records: seq<Record>, rounds: nat, c: nat, r: Record)
    requires c < |records|
    ensures Remaining(records[c := r], rounds) + Left(records[c], rounds) ==
      Remaining(records, rounds) + Left(r, rounds)
  {
    var n := |records| - 1;
    if c == n {
      assert records[c := r][..n] == records[..n];
    } else {
      assert records[c := r][..n] == records[..n][c := r];
      RemainingUpdate(records[..n], rounds, c, r);
    }
  }

  /** Clients not done are at most as many as the rounds left, and none are left iff all are done. */
  lemma {:induction false} UnfinishedHaveRounds(records: seq<Record>, places: seq<Place>, rounds: nat)
    requires |records| == |places|
    requires forall c | 0 <= c < |records| :: places[c] == Done <==> records[c].round >= rounds
    ensures Count(places, Ready) + Count(places, Flight) + Count(places, Replied) +
      Count(places, InHand) <= Remaining(records, rounds)
    ensures Count(places, Ready) + Count(places, Flight) + Count(places, Replied) + Count(places, InHand) == 0 ==>
      Remaining(records, rounds) == 0
  {
    if records == [] {
    } else {
      var n := |records| - 1;
      UnfinishedHaveRounds(records[..n], places[..n], rounds);
    }
  }

  // ----- the invariant -----

  predicate At(s: State, c: nat, p: Place)
    requires Sized(s)
  {
    c < |s.places| && s.places[c] == p
  }

  ghost predicate Listed(s: State, items: seq<Item>, p: Place)
    requires Sized(s)
  {
    && |items| == Count(s.places, p)
    && forall c: nat :: Occ(items, c) == if At(s, c, p) then 1 else 0
  }

  /** Every queue holds exactly the clients recorded to be there, each once. */
  ghost predicate Placed(cfg: Config, s: State) {
    && Sized(s) && |s.records| == cfg.clients
    && Listed(s, s.ready, Ready) && Listed(s, s.inflight, Flight) && Listed(s, s.responses, Replied)
    && Count(s.places, InHand) == (if s.handling.Some? then 1 else 0)
    && (forall c: nat :: s.handling == Some(c) <==> At(s, c, InHand))
  }

  ghost predicate Rounds(cfg: Config, s: State)
    requires Sized(s)
  {
    forall c | 0 <= c < |s.records| ::
      s.records[c].round <= cfg.rounds && (s.places[c] == Done <==> s.records[c].round == cfg.rounds)
  }

  ghost predicate Balanced(cfg: Config, s: State) {
    && s.completed + Remaining(s.records, cfg.rounds) == Total(cfg)
    && |s.candidates| + |s.ready| + |s.inflight| + |s.responses| == Remaining(s.records, cfg.rounds)
    && s.pbar == s.completed + |s.responses|
    && s.sent == s.completed + |s.inflight| + |s.responses|
    && s.sent <= s.completed + cfg.maxParallel
    && (s.sender.MayPop? ==> s.sent < s.completed + cfg.maxParallel)
    && (s.sender.Stopped? ==> s.pbar == Total(cfg))
  }

  /** The payload that continues a conversation with a fresh input. */
  function Prompt(log: Log, input: Text): Text {
    match log
    case Begin => input
    case Said(_, _, payload, reply) => Cat(Cat(payload, reply), input)
  }

  function Turns(log: Log): nat {
    match log
    case Begin => 0
    case Said(before, _, _, _) => Turns(before) + 1
  }

  /** Every payload is the previous payload, its reply and one fresh input. */
  predicate Chained(log: Log) {
    match log
    case Begin => true
    case Said(before, input, payload, _) => payload == Prompt(before, input) && Chained(before)
  }

  /** What the history of a client holds, depending on where the client is. */
  ghost predicate Talks(p: Place, r: Record, chat: Chat) {
    && Chained(chat.log) && Turns(chat.log) == r.round
    && match p
       case Ready => r.history == Prompt(chat.log, chat.input)
       case Flight => r.history == chat.payload == Prompt(chat.log, chat.input)
       case Replied => r.history == chat.payload == Prompt(chat.log, chat.input)
       case InHand => chat.log.Said? && r.history == Cat(chat.log.payload, chat.log.reply)
       case Done => true
  }

  ghost predicate Talking(s: State)
    requires Sized(s)
  {
    && (forall c | 0 <= c < |s.records| :: Talks(s.places[c], s.records[c], s.chats[c]))
    && (forall i | 0 <= i < |s.ready| ::
          s.ready[i].client < |s.records| && s.ready[i].text == s.records[s.ready[i].client].history)
  }

  ghost predicate Inv(cfg: Config, s: State) {
    cfg.rounds >= 1 && Placed(cfg, s) && Rounds(cfg, s) && Balanced(cfg, s) && Talking(s)
  }

  // ----- every action keeps clients placed -----

  lemma ListedAt(s: State, items: seq<Item>, p: Place, i: nat)
    requires Sized(s) && Listed(s, items, p) && i < |items|
    ensures At(s, items[i].client, p)
  {
    OccMember(items, i);
  }

  /** A queue that the action does not touch, and whose place is neither source nor target. */
  lemma ListedElsewhere(s: State, s': State, items: seq<Item>, p: Place, c: nat, q: Place)
    requires Sized(s) && Sized(s') && c < |s.places| && s'.places == s.places[c := q]
    requires Listed(s, items, p) && p != s.places[c] && p != q
    ensures Listed(s', items, p)
  {
    CountUpdate(s.places, c, q, p);
  }

  lemma ListedWithout(s: State, s': State, items: seq<Item>, p: Place, i: nat, q: Place)
    requires Sized(s) && Sized(s') && Listed(s, items, p) && i < |items| && p != q
    requires items[i].client < |s.places| && s'.places == s.places[items[i].client := q]
    ensures Listed(s', Without(items, i), p)
  {
    ListedAt(s, items, p, i);
    CountUpdate(s.places, items[i].client, q, p);
    forall c: nat
      ensures Occ(Without(items, i), c) == if At(s', c, p) then 1 else 0
    {
      OccWithout(items, i, c);
      assert Occ(items, c) == if At(s, c, p) then 1 else 0;
    }
  }

  lemma ListedWith(s: State, s': State, items: seq<Item>, x: Item, p: Place)
    requires Sized(s) && Sized(s') && Listed(s, items, p)
    requires x.client < |s.places| && s.places[x.client] != p && s'.places == s.places[x.client := p]
    ensures Listed(s', items + [x], p)
  {
    CountUpdate(s.places, x.client, p, p);
    forall c: nat
      ensures Occ(items + [x], c) == if At(s', c, p) then 1 else 0
    {
      OccAppend(items, x, c);
      assert Occ(items, c) == if At(s, c, p) then 1 else 0;
    }
  }

  lemma PopPlaced(cfg: Config, s: State, i: nat)
    requires Placed(cfg, s) && Enabled(cfg, s, Pop(i))
    ensures Placed(cfg, Apply(cfg, s, Pop(i)))
  {
    var s' := Apply(cfg, s, Pop(i));
    var c := s.ready[i].client;
    ListedAt(s, s.ready, Ready, i);
    ListedWithout(s, s', s.ready, Ready, i, Flight);
    ListedWith(s, s', s.inflight, s.ready[i], Flight);
    ListedElsewhere(s, s', s.responses, Replied, c, Flight);
    CountUpdate(s.places, c, Flight, InHand);
  }

  lemma AnswerPlaced(cfg: Config, s: State, i: nat, text: Text)
    requires Placed(cfg, s) && Enabled(cfg, s, Answer(i, text))
    ensures Placed(cfg, Apply(cfg, s, Answer(i, text)))
  {
    var s' := Apply(cfg, s, Answer(i, text));
    var c := s.inflight[i].client;
    ListedAt(s, s.inflight, Flight, i);
    ListedWithout(s, s', s.inflight, Flight, i, Replied);
    ListedWith(s, s', s.responses, Item(c, text), Replied);
    ListedElsewhere(s, s', s.ready, Ready, c, Replied);
    CountUpdate(s.places, c, Replied, InHand);
  }

  lemma TakePlaced(cfg: Config, s: State)
    requires Placed(cfg, s) && Enabled(cfg, s, Take)
    ensures Placed(cfg, Apply(cfg, s, Take))
  {
    var s' := Apply(cfg, s, Take);
    var c := s.responses[0].client;
    var q := s'.places[c];
    ListedAt(s, s.responses, Replied, 0);
    ListedWithout(s, s', s.responses, Replied, 0, q);
    assert Without(s.responses, 0) == s.responses[1..];
    ListedElsewhere(s, s', s.ready, Ready, c, q);
    ListedElsewhere(s, s', s.inflight, Flight, c, q);
    CountUpdate(s.places, c, q, InHand);
  }

  lemma RequeuePlaced(cfg: Config, s: State)
    requires Placed(cfg, s) && Enabled(cfg, s, Requeue)
    ensures Placed(cfg, Apply(cfg, s, Requeue))
  {
    var s' := Apply(cfg, s, Requeue);
    var c := s.handling.value;
    assert At(s, c, InHand);
    ListedWith(s, s', s.ready, s'.ready[|s.ready|], Ready);
    ListedElsewhere(s, s', s.inflight, Flight, c, Ready);
    ListedElsewhere(s, s', s.responses, Replied, c, Ready);
    CountUpdate(s.places, c, Ready, InHand);
    forall d: nat
      ensures !At(s', d, InHand)
    {
      assert At(s, d, InHand) <==> d == c;
    }
  }

  lemma PlacedStep(cfg: Config, s: State, a: Action)
    requires Placed(cfg, s) && Enabled(cfg, s, a)
    ensures Placed(cfg, Apply(cfg, s, a))
  {
    match a
    case Pop(i) => PopPlaced(cfg, s, i);
    case Answer(i, text) => AnswerPlaced(cfg, s, i, text);
    case Take => TakePlaced(cfg, s);
    case Requeue => RequeuePlaced(cfg, s);
    case _ => QuietPlaced(cfg, s, a);
  }

  predicate Quiet(a: Action) {
    a.Check? || a.PopNothing? || a.ExitTest?
  }

  lemma QuietPlaced(cfg: Config, s: State, a: Action)
    requires Placed(cfg, s) && Enabled(cfg, s, a) && Quiet(a)
    ensures Placed(cfg, Apply(cfg, s, a))
  {
    var s' := Apply(cfg, s, a);
    assert forall c: nat, p: Place :: At(s', c, p) == At(s, c, p);
  }

  // ----- every action keeps the books -----

  /** The client an action moves, and the place it moves it from. */
  lemma MovedClient(cfg: Config, s: State, a: Action)
    requires Placed(cfg, s) && Enabled(cfg, s, a)
    ensures a.Pop? ==> s.places[s.ready[a.index].client] == Ready
    ensures a.Answer? ==> s.places[s.inflight[a.index].client] == Flight
    ensures a.Take? ==> s.places[s.responses[0].client] == Replied
    ensures a.Requeue? ==> s.places[s.handling.value] == InHand
  {
    match a
    case Pop(i) => ListedAt(s, s.ready, Ready, i);
    case Answer(i, _) => ListedAt(s, s.inflight, Flight, i);
    case Take => ListedAt(s, s.responses, Replied, 0);
    case Requeue => assert At(s, s.handling.value, InHand);
    case _ =>
  }

  lemma RoundsStep(cfg: Config, s: State, a: Action)
    requires Placed(cfg, s) && Rounds(cfg, s) && Enabled(cfg, s, a)
    ensures Rounds(cfg, Apply(cfg, s, a))
  {
    MovedClient(cfg, s, a);
  }

  lemma TakeBalanced(cfg: Config, s: State)
    requires Placed(cfg, s) && Rounds(cfg, s) && Balanced(cfg, s) && Enabled(cfg, s, Take)
    ensures Balanced(cfg, Apply(cfg, s, Take))
  {
    var c := s.responses[0].client;
    MovedClient(cfg, s, Take);
    RemainingUpdate(s.records, cfg.rounds, c, Apply(cfg, s, Take).records[c]);
  }

  lemma RequeueBalanced(cfg: Config, s: State)
    requires Balanced(cfg, s) && Enabled(cfg, s, Requeue)
    ensures Balanced(cfg, Apply(cfg, s, Requeue))
  {
    var c := s.handling.value;
    RemainingUpdate(s.records, cfg.rounds, c, Apply(cfg, s, Requeue).records[c]);
  }

  lemma BalancedStep(cfg: Config, s: State, a: Action)
    requires Placed(cfg, s) && Rounds(cfg, s) && Balanced(cfg, s) && Enabled(cfg, s, a)
    ensures Balanced(cfg, Apply(cfg, s, a))
  {
    if a.Take? {
      TakeBalanced(cfg, s);
    } else if a.Requeue? {
      RequeueBalanced(cfg, s);
    }
  }

  // ----- every action keeps the conversations -----

  lemma PopTalks(cfg: Config, s: State, i: nat)
    requires Placed(cfg, s) && Talking(s) && Enabled(cfg, s, Pop(i))
    ensures Talking(Apply(cfg, s, Pop(i)))
  {
    var s' := Apply(cfg, s, Pop(i));
    MovedClient(cfg, s, Pop(i));
    forall j | 0 <= j < |s'.ready|
      ensures s'.ready[j].client < |s'.records| && s'.ready[j].text == s'.records[s'.ready[j].client].history
    {
      assert s'.ready[j] == s.ready[if j < i then j else j + 1];
    }
  }

  lemma AnswerTalks(cfg: Config, s: State, i: nat, text: Text)
    requires Placed(cfg, s) && Talking(s) && Enabled(cfg, s, Answer(i, text))
    ensures Talking(Apply(cfg, s, Answer(i, text)))
  {
    MovedClient(cfg, s, Answer(i, text));
  }

  lemma TakeTalks(cfg: Config, s: State)
    requires Placed(cfg, s) && Talking(s) && Enabled(cfg, s, Take)
    ensures Talking(Apply(cfg, s, Take))
  {
    var s' := Apply(cfg, s, Take);
    MovedClient(cfg, s, Take);
    forall j | 0 <= j < |s.ready|
      ensures s.ready[j].text == s'.records[s.ready[j].client].history
    {
      ListedAt(s, s.ready, Ready, j);
    }
  }

  lemma RequeueTalks(cfg: Config, s: State)
    requires Placed(cfg, s) && Talking(s) && Enabled(cfg, s, Requeue)
    ensures Talking(Apply(cfg, s, Requeue))
  {
    var s' := Apply(cfg, s, Requeue);
    MovedClient(cfg, s, Requeue);
    forall j | 0 <= j < |s'.ready|
      ensures s'.ready[j].client < |s'.records| && s'.ready[j].text == s'.records[s'.ready[j].client].history
    {
      if j < |s.ready| {
        assert s'.ready[j] == s.ready[j];
        ListedAt(s, s.ready, Ready, j);
      }
    }
  }

  lemma TalkingStep(cfg: Config, s: State, a: Action)
    requires Placed(cfg, s) && Talking(s) && Enabled(cfg, s, a)
    ensures Sized(Apply(cfg, s, a)) && Talking(Apply(cfg, s, a))
  {
    match a
    case Pop(i) => PopTalks(cfg, s, i);
    case Answer(i, text) => AnswerTalks(cfg, s, i, text);
    case Take => TakeTalks(cfg, s);
    case Requeue => RequeueTalks(cfg, s);
    case _ =>
  }

  lemma StepKeeps(cfg: Config, s: State, a: Action)
    requires Inv(cfg, s) && Enabled(cfg, s, a)
    ensures Inv(cfg, Apply(cfg, s, a))
  {
    PlacedStep(cfg, s, a);
    RoundsStep(cfg, s, a);
    BalancedStep(cfg, s, a);
    TalkingStep(cfg, s, a);
  }

  // ----- runs -----

  predicate Legal(cfg: Config, s: State, run: seq<Action>)
    decreases run
  {
    run == [] || (Enabled(cfg, s, run[0]) && Legal(cfg, Apply(cfg, s, run[0]), run[1..]))
  }

  function Exec(cfg: Config, s: State, run: seq<Action>): State
    requires Legal(cfg, s, run)
    decreases run
  {
    if run == [] then s else Exec(cfg, Apply(cfg, s, run[0]), run[1..])
  }

  lemma {:induction false} RunKeeps(cfg: Config, s: State, run: seq<Action>)
    requires Inv(cfg, s) && Legal(cfg, s, run)
    ensures Inv(cfg, Exec(cfg, s, run))
    decreases run
  {
    if run == [] {
    } else {
      StepKeeps(cfg, s, run[0]);
      RunKeeps(cfg, Apply(cfg, s, run[0]), run[1..]);
    }
  }

  lemma {:induction false} FirstItems(items: seq<Item>, first: nat, c: nat)
    requires forall i | 0 <= i < |items| :: items[i].client == first + i
    ensures Occ(items, c) == if first <= c < first + |items| then 1 else 0
  {
    if items == [] {
    } else {
      FirstItems(items[1..], first + 1, c);
    }
  }

  lemma {:induction false} FirstPlaces(places: seq<Place>, p: Place)
    requires forall i | 0 <= i < |places| :: places[i] == Ready
    ensures Count(places, p) == if p == Ready then |places| else 0
  {
    if places == [] {
    } else {
      FirstPlaces(places[..|places| - 1], p);
    }
  }

  lemma {:induction false} FirstRecords(records: seq<Record>, rounds: nat)
    requires forall i | 0 <= i < |records| :: records[i].round == 0
    ensures Remaining(records, rounds) == |records| * rounds
  {
    if records == [] {
    } else {
      FirstRecords(records[..|records| - 1], rounds);
    }
  }

  lemma InitialListed(cfg: Config, s: State)
    requires Sized(s) && |s.records| == cfg.clients == |s.ready| && s.inflight == [] && s.responses == [] &&
      s.handling.None?
    requires forall i | 0 <= i < cfg.clients :: s.ready[i].client == i && s.places[i] == Ready
    ensures Placed(cfg, s)
  {
    forall c: nat
      ensures Occ(s.ready, c) == if c < cfg.clients then 1 else 0
    {
      FirstItems(s.ready, 0, c);
    }
    FirstPlaces(s.places, Ready);
    FirstPlaces(s.places, Flight);
    FirstPlaces(s.places, Replied);
    FirstPlaces(s.places, InHand);
  }

  lemma InitialOk(cfg: Config, inputs: seq<Text>)
    requires |inputs| == Total(cfg) && cfg.rounds >= 1
    ensures Inv(cfg, Initial(cfg, inputs))
  {
    var s := Initial(cfg, inputs);
    InitialListed(cfg, s);
    InitialTalks(cfg, s, inputs);
    FirstRecords(s.records, cfg.rounds);
    assert Balanced(cfg, s);
  }

  lemma InitialTalks(cfg: Config, s: State, inputs: seq<Text>)
    requires Sized(s) && |s.records| == |s.ready| <= |inputs| && cfg.rounds >= 1
    requires forall i | 0 <= i < |s.records| ::
        && s.records[i] == Record(0, inputs[i]) && s.places[i] == Ready
        && s.chats[i] == Chat(Begin, inputs[i], inputs[i]) && s.ready[i] == Item(i, inputs[i])
    ensures Talking(s) && Rounds(cfg, s)
  {
  }

  // ----- main results -----

  /** `candidate_inputs.pop()` cannot underflow: a client in the handler's hand has an input left. */
  lemma NoUnderflow(cfg: Config, s: State)
    requires Inv(cfg, s) && s.handling.Some?
    ensures s.candidates != []
  {
    UnfinishedHaveRounds(s.records, s.places, cfg.rounds);
  }

  /** How often a client occurs in the queues and in the handler's hand, plus one if it is done. */
  function Presence(cfg: Config, s: State, c: nat): nat
    requires c < |s.records|
  {
    Occ(s.ready, c) + Occ(s.inflight, c) + Occ(s.responses, c)
      + (if s.handling == Some(c) then 1 else 0) + (if s.records[c].round >= cfg.rounds then 1 else 0)
  }

  /**
   For every interleaving of sender, server and handler: each client is in exactly one
   place; no more than `maxParallel` requests are unanswered; the unused candidate inputs
   are exactly the rounds still to be queued, so taking one never underflows.
   */
  lemma EveryInterleaving(cfg: Config, inputs: seq<Text>, run: seq<Action>)
    requires |inputs| == Total(cfg) && cfg.rounds >= 1 && Legal(cfg, Initial(cfg, inputs), run)
    ensures var s := Exec(cfg, Initial(cfg, inputs), run);
            && |s.records| == cfg.clients
            && (forall c | 0 <= c < cfg.clients :: Presence(cfg, s, c) == 1)
            && s.sent <= s.completed + cfg.maxParallel
            && |s.candidates| == Remaining(s.records, cfg.rounds) - |s.ready| - |s.inflight| - |s.responses|
            && (s.handling.Some? ==> s.candidates != [])
  {
    InitialOk(cfg, inputs);
    RunKeeps(cfg, Initial(cfg, inputs), run);
    var s := Exec(cfg, Initial(cfg, inputs), run);
    forall c | 0 <= c < cfg.clients
      ensures Presence(cfg, s, c) == 1
    {
      OnePlace(cfg, s, c);
    }
    if s.handling.Some? {
      NoUnderflow(cfg, s);
    }
  }

  lemma OnePlace(cfg: Config, s: State, c: nat)
    requires Inv(cfg, s) && c < cfg.clients
    ensures Presence(cfg, s, c) == 1
  {
    assert s.handling == Some(c) <==> At(s, c, InHand);
  }

  /** The progress bar is full exactly when nothing is left to queue, send or await. */
  lemma FullBarMeansDrained(cfg: Config, s: State)
    requires Inv(cfg, s)
    ensures s.pbar == Total(cfg) <==> s.ready == [] && s.inflight == [] && s.handling.None? && s.candidates == []
  {
    if s.handling.Some? {
      NoUnderflow(cfg, s);
    }
  }

  /** When the sender leaves its loop, no request is abandoned: all have been sent and answered. */
  lemma SenderExitAbandonsNothing(cfg: Config, inputs: seq<Text>, run: seq<Action>)
    requires |inputs| == Total(cfg) && cfg.rounds >= 1 && Legal(cfg, Initial(cfg, inputs), run)
    ensures var s := Exec(cfg, Initial(cfg, inputs), run);
            s.sender.Stopped? ==>
              s.ready == [] && s.inflight == [] && s.handling.None? &&
                s.sent == Total(cfg) == s.completed + |s.responses|
  {
    InitialOk(cfg, inputs);
    RunKeeps(cfg, Initial(cfg, inputs), run);
    FullBarMeansDrained(cfg, Exec(cfg, Initial(cfg, inputs), run));
  }

  /**
   Every payload continues the one before it: that payload, its reply, one fresh input.
   This holds of every finished turn and of the request now in flight.
   */
  lemma PayloadsExtend(cfg: Config, inputs: seq<Text>, run: seq<Action>, c: nat)
    requires |inputs| == Total(cfg) && cfg.rounds >= 1 && Legal(cfg, Initial(cfg, inputs), run)
    requires c < cfg.clients
    ensures var s := Exec(cfg, Initial(cfg, inputs), run);
            && |s.chats| == |s.records| == cfg.clients
            && Chained(s.chats[c].log) && Turns(s.chats[c].log) == s.records[c].round
            && (Occ(s.inflight, c) + Occ(s.responses, c) > 0 ==>
              s.chats[c].payload == Prompt(s.chats[c].log, s.chats[c].input))
  {
    InitialOk(cfg, inputs);
    RunKeeps(cfg, Initial(cfg, inputs), run);
    var s := Exec(cfg, Initial(cfg, inputs), run);
    assert Talks(s.places[c], s.records[c], s.chats[c]);
  }

  /** A continued conversation is, as text, an extension of each payload sent before. */
  lemma {:induction false} EarlierPayloadIsPrefix(log: Log, input: Text)
    requires Chained(log)
    ensures log.Said? ==> Render(log.payload) <= Render(Prompt(log, input))
    ensures log.Said? && log.before.Said? ==> Render(log.before.payload) <= Render(log.payload)
  {
    if log.Said? && log.before.Said? {
      EarlierPayloadIsPrefix(log.before, log.input);
    }
  }

  // ----- termination and progress -----

  predicate IsWork(a: Action) {
    a.Pop? || a.Answer? || a.Take? || a.Requeue?
  }

  /** The number of moves still to be made. */
  function Work(s: State): nat {
    4 * |s.candidates| + 3 * |s.ready| + 2 * |s.inflight| + |s.responses|
  }

  function WorkDone(run: seq<Action>): nat {
    if run == [] then 0 else (if IsWork(run[0]) then 1 else 0) + WorkDone(run[1..])
  }

  /** Each of the four moves uses up one unit of work, nothing gives any back. */
  lemma {:induction false} WorkIsConserved(cfg: Config, s: State, run: seq<Action>)
    requires Legal(cfg, s, run)
    ensures WorkDone(run) + Work(Exec(cfg, s, run)) == Work(s)
    decreases run
  {
    if run == [] {
    } else {
      WorkIsConserved(cfg, Apply(cfg, s, run[0]), run[1..]);
    }
  }

  /** A run makes at most `4 * clients * rounds - clients` moves, and that many iff it completes every round. */
  lemma MovesAreBounded(cfg: Config, inputs: seq<Text>, run: seq<Action>)
    requires |inputs| == Total(cfg) && cfg.rounds >= 1 && Legal(cfg, Initial(cfg, inputs), run)
    ensures var s := Exec(cfg, Initial(cfg, inputs), run);
            && WorkDone(run) <= 4 * Total(cfg) - cfg.clients
            && (WorkDone(run) == 4 * Total(cfg) - cfg.clients <==> s.completed == Total(cfg))
  {
    WorkIsConserved(cfg, Initial(cfg, inputs), run);
    InitialOk(cfg, inputs);
    RunKeeps(cfg, Initial(cfg, inputs), run);
    var s := Exec(cfg, Initial(cfg, inputs), run);
    assert cfg.clients * 1 <= cfg.clients * cfg.rounds;
    assert Work(Initial(cfg, inputs)) == 4 * (Total(cfg) - cfg.clients) + 3 * cfg.clients;
    UnfinishedHaveRounds(s.records, s.places, cfg.rounds);
  }

  /** Free of deadlock: while rounds are left, a move is possible, at worst after the sender's next test. */
  lemma NoDeadlock(cfg: Config, s: State)
    requires Inv(cfg, s) && cfg.maxParallel >= 1 && s.completed < Total(cfg)
    ensures || (exists a :: IsWork(a) && Enabled(cfg, s, a))
            || (Enabled(cfg, s, Check) && exists a :: IsWork(a) && Enabled(cfg, Apply(cfg, s, Check), a))
            || (Enabled(cfg, s, ExitTest) && Apply(cfg, s, ExitTest).sender.AtCheck?)
  {
    FullBarMeansDrained(cfg, s);
    UnfinishedHaveRounds(s.records, s.places, cfg.rounds);
    if s.handling.Some? {
      NoUnderflow(cfg, s);
      assert At(s, s.handling.value, InHand);
      assert IsWork(Requeue) && Enabled(cfg, s, Requeue);
    } else if s.responses != [] {
      ListedAt(s, s.responses, Replied, 0);
      assert IsWork(Take) && Enabled(cfg, s, Take);
    } else if s.inflight != [] {
      ListedAt(s, s.inflight, Flight, 0);
      assert IsWork(Answer(0, Piece(""))) && Enabled(cfg, s, Answer(0, Piece("")));
    } else {
      ListedAt(s, s.ready, Ready, 0);
      assert IsWork(Pop(0));
      if s.sender.MayPop? {
        assert Enabled(cfg, s, Pop(0));
      } else if s.sender.AtCheck? {
        assert Enabled(cfg, Apply(cfg, s, Check), Pop(0));
      }
    }
  }

  // ----- the generator object -----

  /** The ready queue: a random or a first-in-first-out choice of the next request. */
  class ReadyQueue {
    var requests: seq<Item>
    const fifo: bool

    constructor (requests: seq<Item>, fifo: bool)
      ensures this.requests == requests && this.fifo == fifo
    {
      this.requests, this.fifo := requests, fifo;
    }

    method Append(x: Item)
      modifies this
      ensures requests == old(requests) + [x]
    {
      requests := requests + [x];
    }

    /** `choice` is the random draw; it is ignored by the fifo policy. */
    method PopNext(choice: nat) returns (x: Option<Item>, index: nat)
      requires requests != [] && !fifo ==> choice < |requests|
      modifies this
      ensures old(requests) == [] ==> x.None? && requests == []
      ensures old(requests) != [] ==>
        && index == (if fifo then 0 else choice)
        && x == Some(old(requests)[index]) && requests == Without(old(requests), index)
    {
      index := if fifo then 0 else choice;
      if requests == [] {
        x := None;
      } else {
        x := Some(requests[index]);
        requests := Without(requests, index);
      }
    }
  }

  /** The fields of the generator; each method is one action of the state machine. */
  class WorkloadGenerator {
    const cfg: Config
    const queue: ReadyQueue
    var inflight: seq<Item>
    var responses: seq<Item>
    var handling: Option<nat>
    var records: seq<Record>
    var candidates: seq<Text>
    var sent: nat
    var completed: nat
    var pbar: nat
    var sender: Sender
    ghost var places: seq<Place>
    ghost var chats: seq<Chat>

    ghost function Now(): State
      reads this, queue
    {
      State(queue.requests, inflight, responses, handling, records, candidates, sent, completed, pbar, sender, places,
        chats)
    }

    constructor (cfg: Config, inputs: seq<Text>, fifo: bool)
      requires |inputs| == Total(cfg) && cfg.rounds >= 1
      ensures this.cfg == cfg && Now() == Initial(cfg, inputs) && Inv(cfg, Now()) && fresh(queue)
    {
      InitialOk(cfg, inputs);
      assert cfg.clients <= |inputs| by { assert cfg.clients * 1 <= cfg.clients * cfg.rounds; }
      this.cfg := cfg;
      queue := new ReadyQueue(seq(cfg.clients, i requires 0 <= i < cfg.clients => Item(i, inputs[i])), fifo);
      inflight, responses, handling := [], [], None;
      records := seq(cfg.clients, i requires 0 <= i < cfg.clients => Record(0, inputs[i]));
      candidates := inputs[cfg.clients..];
      sent, completed, pbar, sender := 0, 0, 0, AtCheck;
      places := seq(cfg.clients, _ => Ready);
      chats := seq(cfg.clients, i requires 0 <= i < cfg.clients => Chat(Begin, inputs[i], inputs[i]));
    }

    /** The sender's admission test. */
    method Admit()
      requires Enabled(cfg, Now(), Check)
      modifies this
      ensures Now() == Apply(cfg, old(Now()), Check)
    {
      if sent < completed + cfg.maxParallel {
        sender := MayPop;
      }
    }

    /** Past the test: pop a request, if there is one, and put it in flight. */
    method SendNext(choice: nat)
      requires if queue.requests == [] then Enabled(cfg, Now(), PopNothing)
        else Enabled(cfg, Now(), Pop(if queue.fifo then 0 else choice))
      modifies this, queue
      ensures Now() == Apply(cfg, old(Now()), if old(queue.requests) == [] then PopNothing
        else Pop(if queue.fifo then 0 else choice))
    {
      var x, index := queue.PopNext(if queue.fifo then 0 else choice);
      if x.Some? {
        inflight := inflight + [x.value];
        sent := sent + 1;
        places := places[x.value.client := Flight];
        chats := chats[x.value.client := chats[x.value.client].(payload := x.value.text)];
      }
      sender := AtExit;
    }

    /** The sender's exit test. */
    method TestExit() returns (stop: bool)
      requires Enabled(cfg, Now(), ExitTest)
      modifies this
      ensures Now() == Apply(cfg, old(Now()), ExitTest)
      ensures stop <==> pbar == Total(cfg)
    {
      stop := pbar == Total(cfg);
      sender := if stop then Stopped else AtCheck;
    }

    /** `handle_request` when the server answers request `index`. */
    method OnAnswer(index: nat, text: Text)
      requires Enabled(cfg, Now(), Answer(index, text))
      modifies this
      ensures Now() == Apply(cfg, old(Now()), Answer(index, text))
      ensures responses == old(responses) + [Item(old(inflight)[index].client, text)]
    {
      var c := inflight[index].client;
      inflight := Without(inflight, index);
      pbar := pbar + 1;
      responses := responses + [Item(c, text)];
      places := places[c := Replied];
    }

    /** The handler takes the next response and folds it into its client's history. */
    method TakeResponse()
      requires Enabled(cfg, Now(), Take)
      modifies this
      ensures Now() == Apply(cfg, old(Now()), Take)
      ensures var x := old(responses)[0];
              |records| == |old(records)| && x.client < |records| &&
                records[x.client].history == Cat(old(records)[x.client].history, x.text)
    {
      var x := responses[0];
      responses := responses[1..];
      records := records[x.client := Record(records[x.client].round + 1, Cat(records[x.client].history, x.text))];
      completed := completed + 1;
      var more := records[x.client].round < cfg.rounds;
      handling := if more then Some(x.client) else None;
      places := places[x.client := if more then InHand else Done];
      chats := chats[x.client := chats[x.client].(log := Said(chats[x.client].log, chats[x.client].input,
        chats[x.client].payload, x.text))];
    }

    /** The handler queues the next round of the client in hand. */
    method QueueNextRound()
      requires Enabled(cfg, Now(), Requeue)
      modifies this, queue
      ensures Now() == Apply(cfg, old(Now()), Requeue)
      ensures var c, input := old(handling).value, old(candidates)[|old(candidates)| - 1];
              queue.requests == old(queue.requests) + [Item(c, Cat(old(records)[c].history, input))]
    {
      var c := handling.value;
      var input := candidates[|candidates| - 1];
      candidates := candidates[..|candidates| - 1];
      records := records[c := records[c].(history := Cat(records[c].history, input))];
      queue.Append(Item(c, records[c].history));
      handling := None;
      places := places[c := Ready];
      chats := chats[c := chats[c].(input := input)];
    }
  }

  /** The guard the source tests before an action, without the bounds that the invariant supplies. */
  predicate Guard(s: State, a: Action) {
    match a
    case Check => s.sender.AtCheck?
    case Pop(i) => s.sender.MayPop? && i < |s.ready|
    case PopNothing => s.sender.MayPop? && s.ready == []
    case ExitTest => s.sender.AtExit?
    case Answer(i, _) => !s.sender.Stopped? && i < |s.inflight|
    case Take => s.handling.None? && s.responses != []
    case Requeue => s.handling.Some?
  }

  /** In every reachable state the guards suffice: no index, and no pop, is ever out of range. */
  lemma GuardsSuffice(cfg: Config, s: State, a: Action)
    requires Inv(cfg, s) && Guard(s, a)
    ensures Enabled(cfg, s, a)
  {
    match a
    case Pop(i) => ListedAt(s, s.ready, Ready, i);
    case Answer(i, _) => ListedAt(s, s.inflight, Flight, i);
    case Take => ListedAt(s, s.responses, Replied, 0);
    case Requeue =>
      NoUnderflow(cfg, s);
      assert At(s, s.handling.value, InHand);
    case _ =>
  }
}
