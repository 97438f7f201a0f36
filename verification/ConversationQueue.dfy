/**
 The hicache serving benchmark: conversations of several turns travel through one bounded
 queue.  A request takes a conversation out, posts its next turn, rewrites the turn's
 prompt tuple with the length actually generated and puts the conversation back.
 */
module ConversationQueue {

  // ----- one conversation -----

  datatype Prompt = Prompt(text: string, inputLen: nat, outputLen: nat)

  datatype Role = User | Assistant

  datatype Message = Message(role: Role, content: string)

  /** What the server generated for a turn. */
  datatype Answer = Answer(text: string, len: nat)

  /** The fields of a request input that a request changes. */
  datatype Conversation = Conversation(prompts: seq<Prompt>, finished: nat, messages: seq<Message>)

  /** The part of a posted payload that depends on the conversation, and the prompt length reported with it. */
  datatype Post = Post(messages: seq<Message>, maxTokens: nat, promptLen: nat)

  function Started(prompts: seq<Prompt>): Conversation {
    Conversation(prompts, 0, [])
  }

  function LengthOf(prompts: seq<Prompt>): nat {
    if prompts == [] then 0
    else LengthOf(prompts[..|prompts| - 1]) + prompts[|prompts| - 1].inputLen + prompts[|prompts| - 1].outputLen
  }

  function Opened(c: Conversation): Conversation
    requires c.finished < |c.prompts|
  {
    c.(messages := c.messages + [Message(User, c.prompts[c.finished].text)])
  }

  function PostOf(c: Conversation): Post
    requires c.finished < |c.prompts|
  {
    var p := c.prompts[c.finished];
    Post(Opened(c).messages, p.outputLen, LengthOf(c.prompts[..c.finished]) + p.inputLen)
  }

  predicate HasNext(c: Conversation) {
    c.finished + 1 < |c.prompts|
  }

  /** An answered turn.  The last turn leaves the turn counter where it is. */
  function Answered(c: Conversation, a: Answer): Conversation
    requires c.finished < |c.prompts|
  {
    var k := c.finished;
    Conversation(
      c.prompts[k := c.prompts[k].(outputLen := a.len)],
      if HasNext(c) then k + 1 else k,
      c.messages + [Message(Assistant, a.text)])
  }

  // ----- what a conversation should say -----

  /** The first `k` exchanges. */
  function History(script: seq<Prompt>, answers: seq<Answer>, k: nat): seq<Message>
    requires k <= |script| && k <= |answers|
  {
    if k == 0 then []
    else History(script, answers, k - 1) + [Message(User, script[k - 1].text), Message(Assistant, answers[k - 1].text)]
  }

  function InputsThrough(script: seq<Prompt>, k: nat): nat
    requires k <= |script|
  {
    if k == 0 then 0 else InputsThrough(script, k - 1) + script[k - 1].inputLen
  }

  function OutputsThrough(answers: seq<Answer>, k: nat): nat
    requires k <= |answers|
  {
    if k == 0 then 0 else OutputsThrough(answers, k - 1) + answers[k - 1].len
  }

  /** Turn `k`: the whole history and the new user message, the scripted limit, the true length. */
  function Expected(script: seq<Prompt>, answers: seq<Answer>, k: nat): Post
    requires k < |script| && k <= |answers|
  {
    Post(
      History(script, answers, k) + [Message(User, script[k].text)],
      script[k].outputLen,
      InputsThrough(script, k + 1) + OutputsThrough(answers, k))
  }

  /** A payload alternates user and assistant messages, ends with the turn's prompt and has 2k + 1 of them. */
  lemma {:induction false} PayloadAlternates(script: seq<Prompt>, answers: seq<Answer>, k: nat, j: nat)
    requires k < |script| && k <= |answers| && j <= 2 * k
    ensures |Expected(script, answers, k).messages| == 2 * k + 1
    ensures Expected(script, answers, k).messages[j] ==
      if j % 2 == 0 then Message(User, script[j / 2].text) else Message(Assistant, answers[j / 2].text)
    decreases k
  {
    if k == 0 {
    } else {
      PayloadAlternates(script, answers, k - 1, if j <= 2 * (k - 1) then j else 0);
      PayloadExtends(script, answers, k - 1);
    }
  }

  /** Each payload is the one before it, its answer and the next prompt. */
  lemma PayloadExtends(script: seq<Prompt>, answers: seq<Answer>, k: nat)
    requires k + 1 < |script| && k + 1 <= |answers|
    ensures Expected(script, answers, k + 1).messages ==
      Expected(script, answers, k).messages + [Message(Assistant, answers[k].text), Message(User, script[k + 1].text)]
  {
    assert History(script, answers, k + 1) == Expected(script, answers, k).messages +
      [Message(Assistant, answers[k].text)];
  }

  lemma {:induction false} HistoryKeeps(script: seq<Prompt>, answers: seq<Answer>, a: Answer, k: nat)
    requires k <= |script| && k <= |answers|
    ensures History(script, answers + [a], k) == History(script, answers, k)
    ensures OutputsThrough(answers + [a], k) == OutputsThrough(answers, k)
    decreases k
  {
    if k == 0 {
    } else {
      HistoryKeeps(script, answers, a, k - 1);
    }
  }

  /** The prompt tuples of the answered turns carry the actual output lengths, the others the scripted ones. */
  predicate Rewritten(prompts: seq<Prompt>, script: seq<Prompt>, answers: seq<Answer>) {
    && |prompts| == |script| && |answers| <= |script|
    && forall j | 0 <= j < |script| ::
        prompts[j] == if j < |answers| then script[j].(outputLen := answers[j].len) else script[j]
  }

  /** Despite the rewriting, the tuples of the earlier turns add up to the true length. */
  lemma {:induction false} RewrittenLength(prompts: seq<Prompt>, script: seq<Prompt>, answers: seq<Answer>, k: nat)
    requires Rewritten(prompts, script, answers) && k <= |answers|
    ensures LengthOf(prompts[..k]) == InputsThrough(script, k) + OutputsThrough(answers, k)
    decreases k
  {
    if k == 0 {
    } else {
      RewrittenLength(prompts, script, answers, k - 1);
      assert prompts[..k][..k - 1] == prompts[..k - 1];
      assert prompts[..k][k - 1] == prompts[k - 1];
    }
  }

  // ----- the machine -----

  /** Where a conversation is.  `Blocked`: its task waits in `put` for room in the queue. */
  datatype Place = Queued | Waiting | Active | Blocked | Finished | Dropped

  /** A conversation with the answers it received and the posts it made. */
  datatype Slot = Slot(conv: Conversation, place: Place, answers: seq<Answer>, posts: seq<Post>)

  /** `stopped`: the get loop gave up after waiting too long at an empty queue. */
  datatype System = System(queue: seq<nat>, slots: seq<Slot>, gets: nat, stopped: bool)

  type Script = seq<seq<Prompt>>

  function TurnCount(script: Script): nat {
    if script == [] then 0 else |script[0]| + TurnCount(script[1..])
  }

  function FreshSlots(script: Script): (slots: seq<Slot>)
    ensures |slots| == |script|
    ensures forall i | 0 <= i < |script| :: slots[i] == Slot(Started(script[i]), Queued, [], [])
  {
    if script == [] then [] else [Slot(Started(script[0]), Queued, [], [])] + FreshSlots(script[1..])
  }

  function Initial(script: Script): System {
    System(seq(|script|, i => i), FreshSlots(script), 0, false)
  }

  /** `GiveUp`: five minutes passed at an empty queue, and the get loop breaks. */
  datatype Action = Get | GiveUp | Begin(i: nat) | Succeed(i: nat, answer: Answer) | Fail(i: nat)

  /** A semaphore of `limit` units; zero means that there is none. */
  predicate Admits(s: System, limit: nat) {
    limit == 0 || Total(s.slots, IsActive) < limit
  }

  predicate Enabled(s: System, a: Action, script: Script, limit: nat) {
    match a
    case Get => !s.stopped && s.gets < TurnCount(script) && s.queue != [] && s.queue[0] < |s.slots|
    case GiveUp => !s.stopped && s.gets < TurnCount(script) && s.queue == []
    case Begin(i) => i < |s.slots| && s.slots[i].place == Waiting && HasTurn(s.slots[i]) && Admits(s, limit)
    case Succeed(i, _) => i < |s.slots| && s.slots[i].place == Active && HasTurn(s.slots[i])
    case Fail(i) => i < |s.slots| && s.slots[i].place == Active
  }

  predicate HasTurn(slot: Slot) {
    slot.conv.finished < |slot.conv.prompts|
  }

  function Begun(slot: Slot): Slot
    requires HasTurn(slot)
  {
    Slot(Opened(slot.conv), Active, slot.answers, slot.posts + [PostOf(slot.conv)])
  }

  function Succeeded(slot: Slot, answer: Answer, room: bool): Slot
    requires HasTurn(slot)
  {
    Slot(Answered(slot.conv, answer), if !HasNext(slot.conv) then Finished else if room then Queued else Blocked,
         slot.answers + [answer], slot.posts)
  }

  function Apply(s: System, a: Action, script: Script, limit: nat): System
    requires Enabled(s, a, script, limit)
  {
    match a
    case Get =>
      var i := s.queue[0];
      System(s.queue[1..], s.slots[i := s.slots[i].(place := Waiting)], s.gets + 1, s.stopped)
    case GiveUp =>
      s.(stopped := true)
    case Begin(i) =>
      s.(slots := s.slots[i := Begun(s.slots[i])])
    case Succeed(i, answer) =>
      var slot := Succeeded(s.slots[i], answer, |s.queue| < |script|);
      s.(slots := s.slots[i := slot], queue := if slot.place == Queued then s.queue + [i] else s.queue)
    case Fail(i) =>
      s.(slots := s.slots[i := s.slots[i].(place := Dropped)])
  }

  predicate Legal(s: System, run: seq<Action>, script: Script, limit: nat)
    decreases |run|
  {
    run == [] || (Enabled(s, run[0], script, limit) && Legal(Apply(s, run[0], script, limit), run[1..], script, limit))
  }

  function Exec(s: System, run: seq<Action>, script: Script, limit: nat): System
    requires Legal(s, run, script, limit)
    decreases |run|
  {
    if run == [] then s else Exec(Apply(s, run[0], script, limit), run[1..], script, limit)
  }

  // ----- sums over the conversations -----

  function Total(slots: seq<Slot>, f: Slot -> nat): nat {
    if slots == [] then 0 else f(slots[0]) + Total(slots[1..], f)
  }

  function IsQueued(slot: Slot): nat { if slot.place == Queued then 1 else 0 }

  function IsActive(slot: Slot): nat { if slot.place == Active then 1 else 0 }

  function InFlight(slot: Slot): nat { if slot.place in {Waiting, Active} then 1 else 0 }

  function IsClosed(slot: Slot): nat { if slot.place in {Finished, Dropped} then 1 else 0 }

  /** Turns for which the conversation was taken out of the queue. */
  function Taken(slot: Slot): nat {
    match slot.place
    case Queued => slot.conv.finished
    case Finished => |slot.conv.prompts|
    case _ => slot.conv.finished + 1
  }

  /** Turns it will never send. */
  function Forfeited(slot: Slot): nat {
    if slot.place == Dropped && HasNext(slot.conv) then |slot.conv.prompts| - slot.conv.finished - 1 else 0
  }

  /** Turns for which it has not been taken out of the queue. */
  function Untaken(slot: Slot): nat {
    if Taken(slot) <= |slot.conv.prompts| then |slot.conv.prompts| - Taken(slot) else 0
  }

  /** Events still ahead of it: three for each turn not begun. */
  function Ahead(slot: Slot): nat {
    match slot.place
    case Waiting => 3 * Untaken(slot) + 2
    case Active => 3 * Untaken(slot) + 1
    case _ => 3 * Untaken(slot)
  }

  lemma {:induction false} TotalUpdate(slots: seq<Slot>, i: nat, slot: Slot, f: Slot -> nat)
    requires i < |slots|
    ensures Total(slots[i := slot], f) + f(slots[i]) == Total(slots, f) + f(slot)
  {
    if i == 0 {
      assert slots[i := slot][1..] == slots[1..];
    } else {
      assert slots[i := slot][1..] == slots[1..][i - 1 := slot];
      TotalUpdate(slots[1..], i - 1, slot, f);
    }
  }

  /** A positive sum has a positive term, and every term is within the sum. */
  lemma {:induction false} TotalWitness(slots: seq<Slot>, f: Slot -> nat)
    ensures Total(slots, f) == 0 <==> forall i | 0 <= i < |slots| :: f(slots[i]) == 0
  {
    if slots == [] {
    } else {
      TotalWitness(slots[1..], f);
      assert forall i | 1 <= i < |slots| :: slots[i] == slots[1..][i - 1];
    }
  }

  /** Every conversation is in one place. */
  lemma {:induction false} PlacesPartition(slots: seq<Slot>)
    requires forall i | 0 <= i < |slots| :: slots[i].place != Blocked
    ensures Total(slots, IsQueued) + Total(slots, InFlight) + Total(slots, IsClosed) == |slots|
  {
    if slots == [] {
    } else {
      PlacesPartition(slots[1..]);
    }
  }

  // ----- the invariant -----

  /** A conversation against its script. */
  predicate SlotOk(script: seq<Prompt>, slot: Slot) {
    var k, n := slot.conv.finished, |script|;
    && Rewritten(slot.conv.prompts, script, slot.answers)
    && k < n && slot.place != Blocked
    && |slot.answers| == (if slot.place == Finished then n else k)
    && (slot.place == Finished ==> k == n - 1)
    && |slot.posts| == Taken(slot) - (if slot.place == Waiting then 1 else 0)
    && slot.conv.messages ==
        History(script, slot.answers, |slot.answers|)
        + (if slot.place in {Active, Dropped} then [Message(User, script[k].text)] else [])
    && PostsOk(script, slot.answers, slot.posts)
  }

  predicate PostsOk(script: seq<Prompt>, answers: seq<Answer>, posts: seq<Post>) {
    && |posts| <= |script| && |posts| <= |answers| + 1
    && forall j | 0 <= j < |posts| :: posts[j] == Expected(script, answers, j)
  }

  predicate SlotsOk(script: Script, slots: seq<Slot>) {
    |slots| == |script| && forall i | 0 <= i < |script| :: SlotOk(script[i], slots[i])
  }

  ghost predicate QueueOk(queue: seq<nat>, slots: seq<Slot>) {
    && (forall a, b | 0 <= a < b < |queue| :: queue[a] != queue[b])
    && (forall a | 0 <= a < |queue| :: queue[a] < |slots| && slots[queue[a]].place == Queued)
    && |queue| == Total(slots, IsQueued)
  }

  ghost predicate Inv(s: System, script: Script, limit: nat) {
    && SlotsOk(script, s.slots)
    && QueueOk(s.queue, s.slots)
    && s.gets == Total(s.slots, Taken)
    && (s.stopped ==> s.gets < TurnCount(script))
    && (limit > 0 ==> Total(s.slots, IsActive) <= limit)
  }

  predicate NonEmpty(script: Script) {
    forall i | 0 <= i < |script| :: script[i] != []
  }

  lemma {:induction false} FreshTotals(script: Script)
    requires NonEmpty(script)
    ensures Total(FreshSlots(script), IsQueued) == |script|
    ensures Total(FreshSlots(script), Taken) == 0
    ensures Total(FreshSlots(script), IsActive) == 0
    ensures Total(FreshSlots(script), Ahead) == 3 * TurnCount(script)
  {
    if script == [] {
    } else {
      FreshTotals(script[1..]);
      assert FreshSlots(script)[1..] == FreshSlots(script[1..]);
    }
  }

  lemma InitialInv(script: Script, limit: nat)
    requires NonEmpty(script)
    ensures Inv(Initial(script), script, limit)
  {
    FreshTotals(script);
  }

  lemma BegunOk(script: seq<Prompt>, slot: Slot)
    requires SlotOk(script, slot) && slot.place == Waiting
    ensures SlotOk(script, Begun(slot))
  {
    var k := slot.conv.finished;
    RewrittenLength(slot.conv.prompts, script, slot.answers, k);
    assert PostOf(slot.conv) == Expected(script, slot.answers, k);
  }

  lemma PostsKeep(script: seq<Prompt>, answers: seq<Answer>, posts: seq<Post>, a: Answer)
    requires PostsOk(script, answers, posts) && |answers| < |script|
    ensures PostsOk(script, answers + [a], posts)
  {
    forall j | 0 <= j < |posts|
      ensures posts[j] == Expected(script, answers + [a], j)
    {
      HistoryKeeps(script, answers, a, j);
    }
  }

  lemma SucceededOk(script: seq<Prompt>, slot: Slot, a: Answer)
    requires SlotOk(script, slot) && slot.place == Active
    ensures SlotOk(script, Succeeded(slot, a, true))
  {
    var k := slot.conv.finished;
    HistoryKeeps(script, slot.answers, a, k);
    PostsKeep(script, slot.answers, slot.posts, a);
    assert Succeeded(slot, a, true).conv.messages == History(script, slot.answers + [a], k + 1);
  }

  /** A conversation that is not queued leaves room for itself. */
  lemma RoomInQueue(s: System, script: Script, limit: nat, i: nat)
    requires Inv(s, script, limit) && i < |script| && s.slots[i].place != Queued
    ensures |s.queue| < |script|
  {
    PlacesPartition(s.slots);
    TotalWitness(s.slots, InFlight);
    TotalWitness(s.slots, IsClosed);
    assert InFlight(s.slots[i]) + IsClosed(s.slots[i]) == 1;
  }

  lemma SlotsUpdate(script: Script, slots: seq<Slot>, i: nat, slot: Slot)
    requires SlotsOk(script, slots) && i < |script| && SlotOk(script[i], slot)
    ensures SlotsOk(script, slots[i := slot])
  {
    forall j | 0 <= j < |script|
      ensures SlotOk(script[j], slots[i := slot][j])
    {
      if j != i {
        assert slots[i := slot][j] == slots[j];
      }
    }
  }

  lemma QueueAppend(queue: seq<nat>, slots: seq<Slot>, i: nat, slot: Slot)
    requires QueueOk(queue, slots) && i < |slots| && slots[i].place != Queued
    ensures QueueOk(if slot.place == Queued then queue + [i] else queue, slots[i := slot])
  {
    TotalUpdate(slots, i, slot, IsQueued);
  }

  lemma QueuePop(queue: seq<nat>, slots: seq<Slot>, slot: Slot)
    requires QueueOk(queue, slots) && queue != [] && slot.place != Queued
    ensures queue[0] < |slots| && slots[queue[0]].place == Queued
    ensures QueueOk(queue[1..], slots[queue[0] := slot])
  {
    TotalUpdate(slots, queue[0], slot, IsQueued);
  }

  lemma GetKeeps(s: System, script: Script, limit: nat)
    requires Inv(s, script, limit) && Enabled(s, Get, script, limit)
    ensures Inv(Apply(s, Get, script, limit), script, limit)
  {
    var i := s.queue[0];
    var slot := s.slots[i].(place := Waiting);
    QueuePop(s.queue, s.slots, slot);
    assert SlotOk(script[i], s.slots[i]);
    SlotsUpdate(script, s.slots, i, slot);
    TotalUpdate(s.slots, i, slot, IsActive);
    TotalUpdate(s.slots, i, slot, Taken);
  }

  /** Replacing one conversation that is not queued, and appending it if it is now. */
  lemma ReplaceKeeps(s: System, script: Script, limit: nat, i: nat, slot: Slot)
    requires Inv(s, script, limit) && i < |script| && s.slots[i].place != Queued
    requires SlotOk(script[i], slot) && Taken(slot) == Taken(s.slots[i])
    requires limit > 0 && slot.place == Active ==> Total(s.slots, IsActive) < limit
    ensures Inv(System(if slot.place == Queued then s.queue + [i]
      else s.queue, s.slots[i := slot], s.gets, s.stopped), script, limit)
  {
    QueueAppend(s.queue, s.slots, i, slot);
    SlotsUpdate(script, s.slots, i, slot);
    TotalUpdate(s.slots, i, slot, IsActive);
    TotalUpdate(s.slots, i, slot, Taken);
  }

  /** The steps of a task: post, answer, failure. */
  lemma TaskKeeps(s: System, a: Action, script: Script, limit: nat)
    requires Inv(s, script, limit) && Enabled(s, a, script, limit) && a != Get && a != GiveUp
    ensures Inv(Apply(s, a, script, limit), script, limit)
  {
    var slot := s.slots[a.i];
    assert SlotOk(script[a.i], slot);
    match a
    case Begin(i) =>
      BegunOk(script[i], slot);
      ReplaceKeeps(s, script, limit, i, Begun(slot));
    case Succeed(i, answer) =>
      RoomInQueue(s, script, limit, i);
      SucceededOk(script[i], slot, answer);
      ReplaceKeeps(s, script, limit, i, Succeeded(slot, answer, true));
    case Fail(i) =>
      ReplaceKeeps(s, script, limit, i, slot.(place := Dropped));
  }

  lemma StepKeeps(s: System, a: Action, script: Script, limit: nat)
    requires Inv(s, script, limit) && Enabled(s, a, script, limit)
    ensures Inv(Apply(s, a, script, limit), script, limit)
  {
    match a
    case Get => GetKeeps(s, script, limit);
    case GiveUp =>
    case _ => TaskKeeps(s, a, script, limit);
  }

  /** Every interleaving of gets, timeouts, posts, answers and failures keeps the invariant. */
  lemma {:induction false} EveryInterleaving(s: System, run: seq<Action>, script: Script, limit: nat)
    requires Inv(s, script, limit) && Legal(s, run, script, limit)
    ensures Inv(Exec(s, run, script, limit), script, limit)
    decreases |run|
  {
    if run == [] {
    } else {
      StepKeeps(s, run[0], script, limit);
      EveryInterleaving(Apply(s, run[0], script, limit), run[1..], script, limit);
    }
  }

  // ----- what it gives -----

  ghost predicate Reachable(s: System, script: Script, limit: nat) {
    exists run :: Legal(Initial(script), run, script, limit) && Exec(Initial(script), run, script, limit) == s
  }

  lemma ReachableInv(s: System, script: Script, limit: nat)
    requires NonEmpty(script) && Reachable(s, script, limit)
    ensures Inv(s, script, limit)
  {
    var run :| Legal(Initial(script), run, script, limit) && Exec(Initial(script), run, script, limit) == s;
    InitialInv(script, limit);
    EveryInterleaving(Initial(script), run, script, limit);
  }

  /**
   Queued, in-flight and closed conversations always add up to all of them; the queue
   holds distinct conversations, never more than its size, and no `put` ever waits: while
   a task is in flight there is room for its conversation.  At most `limit` posts are open.
   */
  lemma ConversationsAreConserved(s: System, script: Script, limit: nat)
    requires NonEmpty(script) && Reachable(s, script, limit)
    ensures |s.queue| + Total(s.slots, InFlight) + Total(s.slots, IsClosed) == |script|
    ensures forall i | 0 <= i < |s.slots| :: s.slots[i].place != Blocked
    ensures Total(s.slots, InFlight) > 0 ==> |s.queue| < |script|
    ensures limit > 0 ==> Total(s.slots, IsActive) <= limit
  {
    ReachableInv(s, script, limit);
    assert forall i | 0 <= i < |s.slots| :: SlotOk(script[i], s.slots[i]);
    PlacesPartition(s.slots);
  }

  /** The posts of each conversation are its turns, in order, each once and as expected. */
  lemma PostsAreTurns(s: System, script: Script, limit: nat, i: nat, k: nat)
    requires NonEmpty(script) && Reachable(s, script, limit)
    requires i < |s.slots| && k < |s.slots[i].posts|
    ensures |s.slots| == |script| && k < |script[i]| && k <= |s.slots[i].answers|
    ensures s.slots[i].posts[k] == Expected(script[i], s.slots[i].answers, k)
  {
    ReachableInv(s, script, limit);
    assert SlotOk(script[i], s.slots[i]);
  }

  /** Turns of conversations that are back in the queue. */
  function LeftQueued(slot: Slot): nat {
    if slot.place == Queued then Untaken(slot) else 0
  }

  lemma {:induction false} TurnsSplit(slots: seq<Slot>, script: Script)
    requires SlotsOk(script, slots)
    ensures Total(slots, Taken) + Total(slots, Untaken) == TurnCount(script)
    ensures Total(slots, InFlight) == 0 ==> Total(slots, Untaken) == Total(slots, Forfeited) + Total(slots, LeftQueued)
    ensures Total(slots, IsQueued) <= Total(slots, LeftQueued) <= Total(slots, Untaken)
    ensures Total(slots, IsQueued) == 0 ==> Total(slots, LeftQueued) == 0
  {
    if script == [] {
    } else {
      assert SlotOk(script[0], slots[0]);
      TurnsSplit(slots[1..], script[1..]);
    }
  }

  /**
   A conversation in the queue always has a turn that was not counted yet: the get loop,
   which runs for the number of turns, ends with one left only by giving up.
   */
  lemma GetsSuffice(s: System, script: Script, limit: nat)
    requires NonEmpty(script) && Reachable(s, script, limit)
    ensures s.gets <= TurnCount(script)
    ensures s.queue != [] ==> s.gets < TurnCount(script)
    ensures s.queue != [] && !s.stopped ==> Enabled(s, Get, script, limit)
  {
    ReachableInv(s, script, limit);
    TurnsSplit(s.slots, script);
  }

  /** Nothing is in flight, and the get loop takes nothing more out of the queue. */
  predicate AtRest(s: System) {
    Total(s.slots, InFlight) == 0 && (s.stopped || s.queue == [])
  }

  /**
   The turns never sent, exactly: those that a failed conversation still had, and those of
   the conversations that came back to the queue after the get loop had given up.
   */
  lemma ShortfallIsExact(s: System, script: Script, limit: nat)
    requires NonEmpty(script) && Reachable(s, script, limit) && AtRest(s)
    ensures s.gets + Total(s.slots, Forfeited) + Total(s.slots, LeftQueued) == TurnCount(script)
  {
    ReachableInv(s, script, limit);
    TurnsSplit(s.slots, script);
  }

  /** No conversation was dropped with turns left. */
  predicate NothingForfeited(s: System) {
    forall i | 0 <= i < |s.slots| :: Forfeited(s.slots[i]) == 0
  }

  /**
   Every turn is sent if and only if no failure cost a conversation its remaining turns
   and the get loop never gave up.
   */
  lemma EveryTurnSentIff(s: System, script: Script, limit: nat)
    requires NonEmpty(script) && Reachable(s, script, limit) && AtRest(s)
    ensures s.gets == TurnCount(script) <==> NothingForfeited(s) && !s.stopped
  {
    ReachableInv(s, script, limit);
    TurnsSplit(s.slots, script);
    TotalWitness(s.slots, Forfeited);
  }

  /** Then the posts of every conversation are all of its turns. */
  lemma AllTurnsPosted(s: System, script: Script, limit: nat, i: nat)
    requires NonEmpty(script) && Reachable(s, script, limit) && AtRest(s)
    requires s.gets == TurnCount(script) && i < |s.slots|
    ensures |s.slots| == |script| && |s.slots[i].posts| == |script[i]|
    ensures s.slots[i].place != Dropped ==> s.slots[i].place == Finished && |s.slots[i].answers| == |script[i]|
  {
    ReachableInv(s, script, limit);
    TotalWitness(s.slots, InFlight);
    AllTurnsTaken(s, script, limit, i);
    TotalWitness(s.slots, IsQueued);
    assert SlotOk(script[i], s.slots[i]) && InFlight(s.slots[i]) == 0 && IsQueued(s.slots[i]) == 0;
  }

  /** After as many gets as there are turns, every turn has been taken and the queue is empty for good. */
  lemma AllTurnsTaken(s: System, script: Script, limit: nat, i: nat)
    requires NonEmpty(script) && Reachable(s, script, limit) && s.gets == TurnCount(script) && i < |s.slots|
    ensures s.queue == [] && Taken(s.slots[i]) == |s.slots[i].conv.prompts|
    ensures s.slots[i].place == Dropped ==> Forfeited(s.slots[i]) == 0
  {
    ReachableInv(s, script, limit);
    TurnsSplit(s.slots, script);
    TotalWitness(s.slots, Untaken);
    assert SlotOk(script[i], s.slots[i]) && Untaken(s.slots[i]) == 0;
  }

  /** One slow answer suffices: nothing fails, and yet the second turn is never sent. */
  lemma SlowAnswerLosesTurns(first: Prompt, second: Prompt, answer: Answer)
    ensures var script := [[first, second]];
            var run := [Get, Begin(0), GiveUp, Succeed(0, answer)];
            && Legal(Initial(script), run, script, 0)
            && var s := Exec(Initial(script), run, script, 0);
               && s.stopped && s.queue == [0] && s.gets == 1 < TurnCount(script)
               && |s.slots| == 1 && s.slots[0].place == Queued && |s.slots[0].posts| == 1
  {
    var script := [[first, second]];
    var run := [Get, Begin(0), GiveUp, Succeed(0, answer)];
    assert script[1..] == [];
    assert TurnCount(script) == 2;
    var s0 := Initial(script);
    assert s0.slots[0] == Slot(Started([first, second]), Queued, [], []) && s0.queue == [0];
    var s1 := Apply(s0, run[0], script, 0);
    var s2 := Apply(s1, run[1], script, 0);
    var s3 := Apply(s2, run[2], script, 0);
    var s4 := Apply(s3, run[3], script, 0);
    assert run[1..] == [Begin(0), GiveUp, Succeed(0, answer)] && run[1..][1..] == [GiveUp, Succeed(0, answer)];
    assert run[1..][1..][1..] == [Succeed(0, answer)] && run[1..][1..][1..][1..] == [];
    assert Legal(s4, [], script, 0) && Legal(s3, run[1..][1..][1..], script, 0);
    assert Legal(s2, run[1..][1..], script, 0) && Legal(s1, run[1..], script, 0);
    assert Exec(s3, run[1..][1..][1..], script, 0) == s4;
    assert Exec(s2, run[1..][1..], script, 0) == s4 && Exec(s1, run[1..], script, 0) == s4;
  }

  /** No deadlock: until the run is at rest and no get is awaited, some step is possible. */
  lemma SomeStepIsEnabled(s: System, script: Script, limit: nat)
    requires NonEmpty(script) && Reachable(s, script, limit)
    requires Total(s.slots, InFlight) > 0 || (!s.stopped && s.gets < TurnCount(script))
    ensures exists a :: Enabled(s, a, script, limit)
  {
    ReachableInv(s, script, limit);
    if !s.stopped && s.gets < TurnCount(script) {
      if s.queue == [] {
        assert Enabled(s, GiveUp, script, limit);
      } else {
        assert Enabled(s, Get, script, limit);
      }
    } else {
      TaskStepIsEnabled(s, script, limit);
    }
  }

  lemma TaskStepIsEnabled(s: System, script: Script, limit: nat)
    requires Inv(s, script, limit) && Total(s.slots, InFlight) > 0
    ensures exists a :: Enabled(s, a, script, limit)
  {
    TotalWitness(s.slots, InFlight);
    var i :| 0 <= i < |s.slots| && InFlight(s.slots[i]) != 0;
    assert SlotOk(script[i], s.slots[i]);
    if s.slots[i].place == Active {
      assert Enabled(s, Succeed(i, Answer("", 0)), script, limit);
    } else if Admits(s, limit) {
      assert Enabled(s, Begin(i), script, limit);
    } else {
      TotalWitness(s.slots, IsActive);
      var j :| 0 <= j < |s.slots| && IsActive(s.slots[j]) != 0;
      assert SlotOk(script[j], s.slots[j]);
      assert Enabled(s, Succeed(j, Answer("", 0)), script, limit);
    }
  }

  lemma StepUsesOne(s: System, a: Action, script: Script, limit: nat)
    requires Inv(s, script, limit) && Enabled(s, a, script, limit) && a != GiveUp
    ensures Total(Apply(s, a, script, limit).slots, Ahead) < Total(s.slots, Ahead)
  {
    if a == Get {
      var i := s.queue[0];
      assert SlotOk(script[i], s.slots[i]);
      TotalUpdate(s.slots, i, s.slots[i].(place := Waiting), Ahead);
    } else {
      RoomInQueue(s, script, limit, a.i);
      assert SlotOk(script[a.i], s.slots[a.i]);
      TaskAhead(script[a.i], s.slots[a.i], a);
      TotalUpdate(s.slots, a.i, AfterTask(s.slots[a.i], a), Ahead);
    }
  }

  /** The slot after a step of its task, when there is room in the queue. */
  function AfterTask(slot: Slot, a: Action): Slot
    requires HasTurn(slot)
  {
    match a
    case Begin(_) => Begun(slot)
    case Succeed(_, answer) => Succeeded(slot, answer, true)
    case Fail(_) => slot.(place := Dropped)
    case _ => slot
  }

  lemma TaskAhead(script: seq<Prompt>, slot: Slot, a: Action)
    requires SlotOk(script, slot) && a != Get && a != GiveUp
    requires slot.place == if a.Begin? then Waiting else Active
    ensures Ahead(AfterTask(slot, a)) < Ahead(slot)
  {
  }

  /** Everything still ahead: the turns, and giving up once. */
  function Left(s: System): nat {
    Total(s.slots, Ahead) + if s.stopped then 0 else 1
  }

  lemma {:induction false} RunUsesUp(s: System, run: seq<Action>, script: Script, limit: nat)
    requires Inv(s, script, limit) && Legal(s, run, script, limit)
    ensures |run| + Left(Exec(s, run, script, limit)) <= Left(s)
    decreases |run|
  {
    if run == [] {
    } else {
      if run[0] != GiveUp {
        StepUsesOne(s, run[0], script, limit);
      }
      StepKeeps(s, run[0], script, limit);
      RunUsesUp(Apply(s, run[0], script, limit), run[1..], script, limit);
    }
  }

  /** Every run ends: it has at most a get, a post and a reply for each turn, and one timeout. */
  lemma RunsAreBounded(run: seq<Action>, script: Script, limit: nat)
    requires NonEmpty(script) && Legal(Initial(script), run, script, limit)
    ensures |run| <= 3 * TurnCount(script) + 1
  {
    InitialInv(script, limit);
    FreshTotals(script);
    RunUsesUp(Initial(script), run, script, limit);
  }

  // ----- shared prefixes -----

  function Singletons(prompts: seq<Prompt>): Script {
    if prompts == [] then [] else [[prompts[0]]] + Singletons(prompts[1..])
  }

  /** Every prompt becomes a conversation of its own. */
  function Flattened(script: Script): Script {
    if script == [] then [] else Singletons(script[0]) + Flattened(script[1..])
  }

  lemma {:induction false} TurnCountConcat(a: Script, b: Script)
    ensures TurnCount(a + b) == TurnCount(a) + TurnCount(b)
  {
    if a == [] {
      assert a + b == b;
    } else {
      assert (a + b)[1..] == a[1..] + b;
      TurnCountConcat(a[1..], b);
    }
  }

  lemma {:induction false} SingletonsShape(prompts: seq<Prompt>)
    ensures |Singletons(prompts)| == TurnCount(Singletons(prompts)) == |prompts|
    ensures forall i | 0 <= i < |prompts| :: Singletons(prompts)[i] == [prompts[i]]
  {
    if prompts == [] {
    } else {
      SingletonsShape(prompts[1..]);
    }
  }

  /** Flattening keeps the number of turns, which is then the number of conversations, and no conversation is empty. */
  lemma {:induction false} FlattenKeepsTurns(script: Script)
    ensures TurnCount(Flattened(script)) == TurnCount(script) == |Flattened(script)|
    ensures forall i | 0 <= i < |Flattened(script)| :: |Flattened(script)[i]| == 1
  {
    if script == [] {
    } else {
      SingletonsShape(script[0]);
      FlattenKeepsTurns(script[1..]);
      TurnCountConcat(Singletons(script[0]), Flattened(script[1..]));
    }
  }

  /**
   Prompt `j` of script entry `i` becomes conversation number so many as there are prompts
   before it, and that conversation holds this prompt alone.
   */
  lemma {:induction false} FlattenAt(script: Script, i: nat, j: nat)
    requires i < |script| && j < |script[i]|
    ensures TurnCount(script[..i]) + j < |Flattened(script)|
    ensures Flattened(script)[TurnCount(script[..i]) + j] == [script[i][j]]
    decreases i
  {
    SingletonsShape(script[0]);
    FlattenKeepsTurns(script[1..]);
    if i == 0 {
      assert script[..0] == [];
    } else {
      FlattenAt(script[1..], i - 1, j);
      assert script[..i][1..] == script[1..][..i - 1];
    }
  }

  /** The number of turns up to a script entry is the sum of the lengths before it. */
  lemma {:induction false} TurnCountUpTo(script: Script, i: nat)
    requires i < |script|
    ensures TurnCount(script[..0]) == 0 && TurnCount(script[..i + 1]) == TurnCount(script[..i]) + |script[i]|
  {
    assert script[..i + 1] == script[..i] + [script[i]];
    TurnCountConcat(script[..i], [script[i]]);
    assert [script[i]][1..] == [];
  }

  // ----- the answers are the server's -----

  /** What the server answered conversation `i` in a run, in order. */
  function AnswersIn(run: seq<Action>, i: nat): seq<Answer> {
    if run == [] then []
    else (if run[0].Succeed? && run[0].i == i then [run[0].answer] else []) + AnswersIn(run[1..], i)
  }

  function AnswerOf(a: Action, i: nat): seq<Answer> {
    if a.Succeed? && a.i == i then [a.answer] else []
  }

  lemma AnswersStep(s: System, a: Action, script: Script, limit: nat, i: nat)
    requires Enabled(s, a, script, limit) && i < |s.slots|
    ensures |Apply(s, a, script, limit).slots| == |s.slots|
    ensures Apply(s, a, script, limit).slots[i].answers == s.slots[i].answers + AnswerOf(a, i)
  {
  }

  lemma AnswersRegroup(a: seq<Answer>, b: seq<Answer>, c: seq<Answer>)
    ensures (a + b) + c == a + (b + c) && a + [] == a
  {
  }

  lemma {:induction false} AnswersAreKept(s: System, run: seq<Action>, script: Script, limit: nat, i: nat)
    requires Legal(s, run, script, limit) && i < |s.slots|
    ensures |Exec(s, run, script, limit).slots| == |s.slots|
    ensures Exec(s, run, script, limit).slots[i].answers == s.slots[i].answers + AnswersIn(run, i)
    decreases |run|
  {
    if run == [] {
      AnswersRegroup(s.slots[i].answers, [], []);
    } else {
      AnswersStep(s, run[0], script, limit, i);
      AnswersAreKept(Apply(s, run[0], script, limit), run[1..], script, limit, i);
      AnswersRegroup(s.slots[i].answers, AnswerOf(run[0], i), AnswersIn(run[1..], i));
    }
  }

  /** Read off the run: each post of a conversation speaks of what the server answered it in that run. */
  lemma PostsQuoteTheServer(run: seq<Action>, script: Script, limit: nat, i: nat, k: nat)
    requires NonEmpty(script) && Legal(Initial(script), run, script, limit) && i < |script|
    ensures var s := Exec(Initial(script), run, script, limit);
            && |s.slots| == |script| && s.slots[i].answers == AnswersIn(run, i)
            && (k < |s.slots[i].posts| ==>
                k < |script[i]| && k <= |AnswersIn(run, i)| &&
                  s.slots[i].posts[k] == Expected(script[i], AnswersIn(run, i), k))
  {
    AnswersAreKept(Initial(script), run, script, limit, i);
    AnswersRegroup(AnswersIn(run, i), [], []);
    assert [] + AnswersIn(run, i) == AnswersIn(run, i);
    ReachableInv(Exec(Initial(script), run, script, limit), script, limit);
    assert SlotOk(script[i], Exec(Initial(script), run, script, limit).slots[i]);
  }
}
