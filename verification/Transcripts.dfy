/**
 What is said in a run of the multi-turn generator, read off the run alone: the texts the
 server answers, the fresh inputs taken from the pool, and the payloads that go out.
 */
module Transcripts {
  import opened Options
  import opened MultiTurn

  // ----- the three records of a run -----

  /** The answers of a run: for each, the client whose request it answers and the server's text. */
  function Answered(cfg: Config, s: State, run: seq<Action>): seq<Item>
    requires Legal(cfg, s, run)
    decreases run
  {
    if run == [] then []
    else
      (match run[0]
       case Answer(i, text) => [Item(s.inflight[i].client, text)]
       case _ => [])
      + Answered(cfg, Apply(cfg, s, run[0]), run[1..])
  }

  /** The inputs handed out, each the last one left in the pool, to the client in hand. */
  function Fed(cfg: Config, s: State, run: seq<Action>, pool: seq<Text>): seq<Item>
    requires Legal(cfg, s, run)
    decreases run
  {
    if run == [] then []
    else if run[0].Requeue? && pool != [] then
      [Item(s.handling.value, pool[|pool| - 1])]
        + Fed(cfg, Apply(cfg, s, run[0]), run[1..], pool[..|pool| - 1])
    else Fed(cfg, Apply(cfg, s, run[0]), run[1..], pool)
  }

  /** The payloads sent: what each pop puts in flight. */
  function Posted(cfg: Config, s: State, run: seq<Action>): seq<Item>
    requires Legal(cfg, s, run)
    decreases run
  {
    if run == [] then []
    else
      var s' := Apply(cfg, s, run[0]);
      (if run[0].Pop? then [s'.inflight[|s'.inflight| - 1]] else []) + Posted(cfg, s', run[1..])
  }

  /** The texts that concern one client, in order. */
  function TextsOf(items: seq<Item>, c: nat): seq<Text> {
    if items == [] then [] else (if items[0].client == c then [items[0].text] else []) + TextsOf(items[1..], c)
  }

  function Requeues(run: seq<Action>): nat {
    if run == [] then 0 else (if run[0].Requeue? then 1 else 0) + Requeues(run[1..])
  }

  // ----- the pool is read backwards -----

  ghost predicate ReadBackwards(pool: seq<Text>, left: seq<Text>, fed: seq<Item>, n: nat) {
    && n <= |pool| && left == pool[..|pool| - n]
    && |fed| == n && forall m | 0 <= m < n :: fed[m].text == pool[|pool| - 1 - m]
  }

  lemma OneMoreRead(pool: seq<Text>, left: seq<Text>, fed: seq<Item>, n: nat, c: nat)
    requires pool != [] && ReadBackwards(pool[..|pool| - 1], left, fed, n)
    ensures ReadBackwards(pool, left, [Item(c, pool[|pool| - 1])] + fed, n + 1)
  {
    var all := [Item(c, pool[|pool| - 1])] + fed;
    forall m | 0 <= m < n + 1
      ensures all[m].text == pool[|pool| - 1 - m]
    {
      if m > 0 {
        assert all[m] == fed[m - 1];
      }
    }
  }

  /**
   Every queued round takes the last candidate left, each candidate once: after a run the
   pool lacks as many candidates at its end as rounds were queued, and the m-th input handed
   out was the m-th from the end.
   */
  lemma {:induction false} PoolIsReadBackwards(cfg: Config, s: State, run: seq<Action>)
    requires Legal(cfg, s, run)
    ensures ReadBackwards(s.candidates, Exec(cfg, s, run).candidates, Fed(cfg, s, run, s.candidates), Requeues(run))
    decreases run
  {
    if run == [] {
      assert s.candidates[..|s.candidates|] == s.candidates;
    } else {
      var s' := Apply(cfg, s, run[0]);
      PoolIsReadBackwards(cfg, s', run[1..]);
      if run[0].Requeue? {
        OneMoreRead(s.candidates, Exec(cfg, s, run).candidates, Fed(cfg, s', run[1..], s'.candidates),
          Requeues(run[1..]), s.handling.value);
      }
    }
  }

  // ----- one conversation -----

  /** What has been said with one client so far. */
  datatype Telling = Telling(first: Text, answers: seq<Text>, inputs: seq<Text>, posts: seq<Text>)

  /** The first input, and then `k` times an answer and a fresh input. */
  function Spoken(t: Telling, k: nat): Text
    requires k <= |t.answers| && k <= |t.inputs|
  {
    if k == 0 then t.first else Cat(Cat(Spoken(t, k - 1), t.answers[k - 1]), t.inputs[k - 1])
  }

  function Replies(log: Log): seq<Text> {
    match log
    case Begin => []
    case Said(before, _, _, reply) => Replies(before) + [reply]
  }

  /** How far a conversation has come, by where its client is. */
  ghost predicate Counts(p: Place, r: nat, t: Telling) {
    match p
    case Ready => |t.answers| == |t.inputs| == |t.posts| == r
    case Flight => |t.answers| == |t.inputs| == r && |t.posts| == r + 1
    case Replied => |t.answers| == |t.posts| == r + 1 && |t.inputs| == r
    case InHand => |t.answers| == |t.posts| == r && |t.inputs| + 1 == r
    case Done => |t.answers| == |t.posts| == r && |t.inputs| + 1 == r
  }

  /** The text the client's record holds. */
  ghost predicate Holds(p: Place, r: nat, history: Text, t: Telling)
    requires Counts(p, r, t)
  {
    match p
    case Ready => history == Spoken(t, r)
    case Flight => history == Spoken(t, r)
    case Replied => history == Spoken(t, r)
    case InHand => history == Cat(Spoken(t, r - 1), t.answers[r - 1])
    case Done => true
  }

  /** A payload sent is the conversation up to it. */
  ghost predicate PostIsSpoken(t: Telling, k: nat)
    requires k < |t.posts|
  {
    k <= |t.answers| && k <= |t.inputs| && t.posts[k] == Spoken(t, k)
  }

  ghost predicate PostsAreSpoken(t: Telling) {
    forall k | 0 <= k < |t.posts| :: PostIsSpoken(t, k)
  }

  /** The answer still in the response queue is the last one given. */
  ghost predicate Awaits(s: State, c: nat, t: Telling) {
    forall i | 0 <= i < |s.responses| && s.responses[i].client == c ::
      t.answers != [] && s.responses[i].text == t.answers[|t.answers| - 1]
  }

  ghost predicate Told(s: State, c: nat, t: Telling) {
    && Sized(s) && c < |s.records|
    && Counts(s.places[c], s.records[c].round, t)
    && Holds(s.places[c], s.records[c].round, s.records[c].history, t)
    && PostsAreSpoken(t) && Awaits(s, c, t)
    && s.records[c].round <= |t.answers| && Replies(s.chats[c].log) == t.answers[..s.records[c].round]
  }

  /** What is said with client `c` when one action is taken. */
  function Next(cfg: Config, s: State, a: Action, c: nat, t: Telling): Telling
    requires Enabled(cfg, s, a)
  {
    var s' := Apply(cfg, s, a);
    match a
    case Answer(i, text) => if s.inflight[i].client == c then t.(answers := t.answers + [text]) else t
    case Requeue =>
      if s.handling.value == c then t.(inputs := t.inputs + [s.candidates[|s.candidates| - 1]]) else t
    case Pop(_) =>
      var sent := s'.inflight[|s'.inflight| - 1];
      if sent.client == c then t.(posts := t.posts + [sent.text]) else t
    case _ => t
  }

  /** What was said earlier does not change when more is said. */
  lemma {:induction false} SpokenKept(t: Telling, u: Telling, k: nat)
    requires k <= |t.answers| && k <= |t.inputs| && t.first == u.first
    requires t.answers <= u.answers && t.inputs <= u.inputs
    ensures Spoken(u, k) == Spoken(t, k)
  {
    if k == 0 {
    } else {
      SpokenKept(t, u, k - 1);
    }
  }

  lemma PostsKept(t: Telling, u: Telling)
    requires PostsAreSpoken(t) && t.first == u.first && t.posts == u.posts
    requires t.answers <= u.answers && t.inputs <= u.inputs
    ensures PostsAreSpoken(u)
  {
    forall k | 0 <= k < |u.posts|
      ensures PostIsSpoken(u, k)
    {
      assert PostIsSpoken(t, k);
      SpokenKept(t, u, k);
    }
  }

  /** An action that moves another client. */
  lemma OtherTold(s: State, s': State, c: nat, t: Telling)
    requires Told(s, c, t) && Sized(s') && c < |s'.records|
    requires s'.records[c] == s.records[c] && s'.places[c] == s.places[c] && s'.chats[c] == s.chats[c]
    requires forall i | 0 <= i < |s'.responses| && s'.responses[i].client == c ::
               exists j | 0 <= j < |s.responses| :: s.responses[j] == s'.responses[i]
    ensures Told(s', c, t)
  {
  }

  lemma PopTold(cfg: Config, s: State, i: nat, c: nat, t: Telling)
    requires Inv(cfg, s) && Enabled(cfg, s, Pop(i)) && Told(s, c, t)
    ensures Told(Apply(cfg, s, Pop(i)), c, Next(cfg, s, Pop(i), c, t))
  {
    var s' := Apply(cfg, s, Pop(i));
    MovedClient(cfg, s, Pop(i));
    if s.ready[i].client == c {
      var u := Next(cfg, s, Pop(i), c, t);
      assert s'.inflight[|s'.inflight| - 1] == s.ready[i];
      var r := s.records[c].round;
      assert u.posts == t.posts + [Spoken(t, r)];
      forall k | 0 <= k < |u.posts|
        ensures PostIsSpoken(u, k)
      {
        if k < |t.posts| {
          assert PostIsSpoken(t, k);
          SpokenKept(t, u, k);
        } else {
          SpokenKept(t, u, r);
        }
      }
      SpokenKept(t, u, r);
    } else {
      OtherTold(s, s', c, t);
    }
  }

  lemma AnswerTold(cfg: Config, s: State, i: nat, text: Text, c: nat, t: Telling)
    requires Inv(cfg, s) && Enabled(cfg, s, Answer(i, text)) && Told(s, c, t)
    ensures Told(Apply(cfg, s, Answer(i, text)), c, Next(cfg, s, Answer(i, text), c, t))
  {
    var s' := Apply(cfg, s, Answer(i, text));
    MovedClient(cfg, s, Answer(i, text));
    if s.inflight[i].client == c {
      var u, r := Next(cfg, s, Answer(i, text), c, t), s.records[c].round;
      assert u.answers[..r] == t.answers[..r];
      PostsKept(t, u);
      SpokenKept(t, u, r);
      NotReplied(cfg, s, c);
      assert forall j | 0 <= j < |s.responses| :: s'.responses[j] == s.responses[j];
    } else {
      OtherTold(s, s', c, t);
    }
  }

  /** A client that is not waiting in the response queue has no entry there. */
  lemma NotReplied(cfg: Config, s: State, c: nat)
    requires Inv(cfg, s) && c < |s.places| && s.places[c] != Replied
    ensures forall i | 0 <= i < |s.responses| :: s.responses[i].client != c
  {
    forall i | 0 <= i < |s.responses|
      ensures s.responses[i].client != c
    {
      ListedAt(s, s.responses, Replied, i);
    }
  }

  lemma TakeTold(cfg: Config, s: State, c: nat, t: Telling)
    requires Inv(cfg, s) && Enabled(cfg, s, Take) && Told(s, c, t)
    ensures Told(Apply(cfg, s, Take), c, t)
  {
    var s' := Apply(cfg, s, Take);
    MovedClient(cfg, s, Take);
    if s.responses[0].client == c {
      var r := s.records[c].round;
      assert s.responses[0].text == t.answers[r];
      assert t.answers[..r + 1] == t.answers[..r] + [t.answers[r]];
      StepKeeps(cfg, s, Take);
      NotReplied(cfg, s', c);
    } else {
      forall i | 0 <= i < |s'.responses|
        ensures s'.responses[i] == s.responses[i + 1]
      {
      }
      OtherTold(s, s', c, t);
    }
  }

  lemma RequeueTold(cfg: Config, s: State, c: nat, t: Telling)
    requires Inv(cfg, s) && Enabled(cfg, s, Requeue) && Told(s, c, t)
    ensures Told(Apply(cfg, s, Requeue), c, Next(cfg, s, Requeue, c, t))
  {
    var s' := Apply(cfg, s, Requeue);
    MovedClient(cfg, s, Requeue);
    if s.handling.value == c {
      var u, r := Next(cfg, s, Requeue, c, t), s.records[c].round;
      PostsKept(t, u);
      SpokenKept(t, u, r - 1);
      assert u.inputs[r - 1] == s.candidates[|s.candidates| - 1];
      NotReplied(cfg, s, c);
    } else {
      OtherTold(s, s', c, t);
    }
  }

  lemma StepTold(cfg: Config, s: State, a: Action, c: nat, t: Telling)
    requires Inv(cfg, s) && Enabled(cfg, s, a) && Told(s, c, t)
    ensures Told(Apply(cfg, s, a), c, Next(cfg, s, a, c, t))
  {
    match a
    case Pop(i) => PopTold(cfg, s, i, c, t);
    case Answer(i, text) => AnswerTold(cfg, s, i, text, c, t);
    case Take => TakeTold(cfg, s, c, t);
    case Requeue => RequeueTold(cfg, s, c, t);
    case _ => OtherTold(s, Apply(cfg, s, a), c, t);
  }

  // ----- whole runs -----

  /** What has been said with client `c` after the run. */
  function Heard(cfg: Config, s: State, run: seq<Action>, c: nat, t: Telling): Telling
    requires Legal(cfg, s, run)
  {
    Telling(t.first,
            t.answers + TextsOf(Answered(cfg, s, run), c),
            t.inputs + TextsOf(Fed(cfg, s, run, s.candidates), c),
            t.posts + TextsOf(Posted(cfg, s, run), c))
  }

  lemma TextsOfMore(items: seq<Item>, rest: seq<Item>, c: nat, before: seq<Text>)
    requires |items| <= 1
    ensures before + TextsOf(items + rest, c) == (before + TextsOf(items, c)) + TextsOf(rest, c)
  {
    if items == [] {
      assert items + rest == rest;
    } else {
      assert (items + rest)[1..] == rest && items[1..] == [];
    }
  }

  lemma AnswersNext(cfg: Config, s: State, run: seq<Action>, c: nat, t: Telling)
    requires Legal(cfg, s, run) && run != []
    ensures t.answers + TextsOf(Answered(cfg, s, run), c) ==
      Next(cfg, s, run[0], c, t).answers + TextsOf(Answered(cfg, Apply(cfg, s, run[0]), run[1..]), c)
  {
    var items := match run[0] { case Answer(i, text) => [Item(s.inflight[i].client, text)] case _ => [] };
    TextsOfMore(items, Answered(cfg, Apply(cfg, s, run[0]), run[1..]), c, t.answers);
    assert Next(cfg, s, run[0], c, t).answers == t.answers + TextsOf(items, c);
  }

  lemma InputsNext(cfg: Config, s: State, run: seq<Action>, c: nat, t: Telling)
    requires Legal(cfg, s, run) && run != []
    ensures var s' := Apply(cfg, s, run[0]);
            t.inputs + TextsOf(Fed(cfg, s, run, s.candidates), c) ==
              Next(cfg, s, run[0], c, t).inputs + TextsOf(Fed(cfg, s', run[1..], s'.candidates), c)
  {
    var s' := Apply(cfg, s, run[0]);
    if run[0].Requeue? {
      var items := [Item(s.handling.value, s.candidates[|s.candidates| - 1])];
      TextsOfMore(items, Fed(cfg, s', run[1..], s'.candidates), c, t.inputs);
      assert Next(cfg, s, run[0], c, t).inputs == t.inputs + TextsOf(items, c);
    }
  }

  lemma PostsNext(cfg: Config, s: State, run: seq<Action>, c: nat, t: Telling)
    requires Legal(cfg, s, run) && run != []
    ensures t.posts + TextsOf(Posted(cfg, s, run), c) ==
      Next(cfg, s, run[0], c, t).posts + TextsOf(Posted(cfg, Apply(cfg, s, run[0]), run[1..]), c)
  {
    var s' := Apply(cfg, s, run[0]);
    var items := if run[0].Pop? then [s'.inflight[|s'.inflight| - 1]] else [];
    TextsOfMore(items, Posted(cfg, s', run[1..]), c, t.posts);
    assert Next(cfg, s, run[0], c, t).posts == t.posts + TextsOf(items, c);
  }

  lemma HeardNext(cfg: Config, s: State, run: seq<Action>, c: nat, t: Telling)
    requires Legal(cfg, s, run) && run != []
    ensures Heard(cfg, s, run, c, t) ==
      Heard(cfg, Apply(cfg, s, run[0]), run[1..], c, Next(cfg, s, run[0], c, t))
  {
    AnswersNext(cfg, s, run, c, t);
    InputsNext(cfg, s, run, c, t);
    PostsNext(cfg, s, run, c, t);
  }

  lemma {:induction false} RunTold(cfg: Config, s: State, run: seq<Action>, c: nat, t: Telling)
    requires Inv(cfg, s) && Legal(cfg, s, run) && Told(s, c, t)
    ensures Told(Exec(cfg, s, run), c, Heard(cfg, s, run, c, t))
    decreases run
  {
    if run == [] {
      assert Heard(cfg, s, run, c, t) == t;
    } else {
      StepTold(cfg, s, run[0], c, t);
      StepKeeps(cfg, s, run[0]);
      HeardNext(cfg, s, run, c, t);
      RunTold(cfg, Apply(cfg, s, run[0]), run[1..], c, Next(cfg, s, run[0], c, t));
    }
  }

  /** The characters of a conversation: the first input, then `k` times an answer and a fresh input. */
  function Dialogue(first: Text, answers: seq<Text>, inputs: seq<Text>, k: nat): string
    requires k <= |answers| && k <= |inputs|
  {
    if k == 0 then Render(first)
    else Dialogue(first, answers, inputs, k - 1) + Render(answers[k - 1]) + Render(inputs[k - 1])
  }

  lemma {:induction false} SpokenRenders(t: Telling, k: nat)
    requires k <= |t.answers| && k <= |t.inputs|
    ensures Render(Spoken(t, k)) == Dialogue(t.first, t.answers, t.inputs, k)
  {
    if k == 0 {
    } else {
      SpokenRenders(t, k - 1);
    }
  }

  lemma InitialTold(cfg: Config, inputs: seq<Text>, c: nat)
    requires |inputs| == Total(cfg) && cfg.rounds >= 1 && c < cfg.clients
    ensures c < |inputs| && cfg.clients <= |inputs|
    ensures Told(Initial(cfg, inputs), c, Telling(inputs[c], [], [], []))
  {
    assert cfg.clients * 1 <= cfg.clients * cfg.rounds;
  }

  /** What is said, and what is sent, in a run from the start. */
  function Talk(cfg: Config, inputs: seq<Text>, run: seq<Action>, c: nat): Telling
    requires |inputs| == Total(cfg) && cfg.rounds >= 1 && Legal(cfg, Initial(cfg, inputs), run)
    requires c < cfg.clients <= |inputs|
  {
    var s0 := Initial(cfg, inputs);
    Telling(inputs[c], TextsOf(Answered(cfg, s0, run), c), TextsOf(Fed(cfg, s0, run, inputs[cfg.clients..]), c),
            TextsOf(Posted(cfg, s0, run), c))
  }

  lemma TalkIsTold(cfg: Config, inputs: seq<Text>, run: seq<Action>, c: nat)
    requires |inputs| == Total(cfg) && cfg.rounds >= 1 && Legal(cfg, Initial(cfg, inputs), run)
    requires c < cfg.clients <= |inputs|
    ensures Inv(cfg, Exec(cfg, Initial(cfg, inputs), run))
    ensures Told(Exec(cfg, Initial(cfg, inputs), run), c, Talk(cfg, inputs, run, c))
  {
    var s0, t0 := Initial(cfg, inputs), Telling(inputs[c], [], [], []);
    InitialOk(cfg, inputs);
    InitialTold(cfg, inputs, c);
    RunTold(cfg, s0, run, c, t0);
    RunKeeps(cfg, s0, run);
    assert Heard(cfg, s0, run, c, t0) == Talk(cfg, inputs, run, c);
  }

  /**
   In every run, of every client: the k-th payload sent is the client's first input followed
   by k times the text the server answered and the fresh input it was handed; the replies in
   its log are those texts, in order, all but the one still in the response queue.
   */
  lemma PayloadsAreDialogues(cfg: Config, inputs: seq<Text>, run: seq<Action>, c: nat)
    requires |inputs| == Total(cfg) && cfg.rounds >= 1 && Legal(cfg, Initial(cfg, inputs), run) && c < cfg.clients
    ensures cfg.clients <= |inputs|
    ensures var s0 := Initial(cfg, inputs);
            var s := Exec(cfg, s0, run);
            var answers := TextsOf(Answered(cfg, s0, run), c);
            var handed := TextsOf(Fed(cfg, s0, run, inputs[cfg.clients..]), c);
            var posts := TextsOf(Posted(cfg, s0, run), c);
            && |s.chats| == |s.records| == cfg.clients
            && |answers| <= |posts| <= |answers| + 1 && |handed| <= |answers| <= |handed| + 1
            && (forall k | 0 <= k < |posts| ::
                  && k <= |answers| && k <= |handed|
                  && Render(posts[k]) == Dialogue(inputs[c], answers, handed, k))
            && |answers| == s.records[c].round + Occ(s.responses, c)
            && Replies(s.chats[c].log) == answers[..s.records[c].round]
  {
    InitialTold(cfg, inputs, c);
    var s, t := Exec(cfg, Initial(cfg, inputs), run), Talk(cfg, inputs, run, c);
    TalkIsTold(cfg, inputs, run, c);
    forall k | 0 <= k < |t.posts|
      ensures k <= |t.answers| && k <= |t.inputs|
      ensures Render(t.posts[k]) == Dialogue(inputs[c], t.answers, t.inputs, k)
    {
      assert PostIsSpoken(t, k);
      SpokenRenders(t, k);
    }
    assert Occ(s.responses, c) == if At(s, c, Replied) then 1 else 0;
  }
}
