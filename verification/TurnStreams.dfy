/**
 Which streams of messages a turn accepts, beyond what each function of the session decides: every answer
 within the bounds can be given, with each kind of notification that is tolerated in its place, and
 notifications that say nothing may come anywhere between the start of the turn and its completion.
*/
module TurnStreams {
  import opened Bytes
  import opened Options
  import opened AppServerProtocol
  import Utf8

  // ---------- Every answer can be given ----------

  /**
   The messages up to the start of the turn: the replies to requests 1 to 11, with a catalogue of two
   pages and a skill to switch off, and each notification that may come before a turn in its place.
  */
  function Prologue(thread: Id, turn: Id): seq<Message>
  {
    [Response(1, Some(Plain(true))),
     Response(2, Some(Page(true, Some("next")))), Response(3, Some(Page(true, None))),
     Response(4, Some(Page(true, None))),
     Response(5, Some(Plain(true))), Notification(RateLimits), Response(6, Some(Plain(true))),
     Notification(SkillsChanged), Response(7, Some(Skills(true, ["skill"], false))),
     Notification(SkillsChanged), Response(8, Some(Plain(true))), Response(9, Some(Skills(true, [], true))),
     Notification(RemoteControl(true)), Notification(ThreadStarted(thread)), Response(10, Some(Thread(true, thread))),
     Notification(StatusChanged(thread)), Notification(TurnStarted(thread, turn)),
     Response(11, Some(Started(turn, true)))]
  }

  function Begun(thread: Id, turn: Id): State
  {
    IDLE.(thread := Some(thread), announcedThread := Some(thread), turn := Some(turn), announcedTurn := Some(turn))
  }

  function Streamed(thread: Id, turn: Id, ms: seq<AgentMessage>): seq<Message>
  {
    if ms == [] then [] else
      Streamed(thread, turn, ms[..|ms| - 1]) + [Notification(ItemCompleted(thread, turn, Agent(ms[|ms| - 1])))]
  }

  /** The usage, the completion, and the reply to the closing read. */
  function Epilogue(thread: Id, turn: Turn, usage: Usage): seq<Message>
  {
    [Notification(TokenUsage(thread, turn.id, usage)), Notification(TurnCompleted(thread, turn)),
     Response(12, Some(Plain(true)))]
  }

  /**
   The turn went well, lists what was streamed if it lists anything, and the last of the streamed
   messages, and no other, can be the answer.
  */
  predicate GoodAnswer(turn: Turn, ms: seq<AgentMessage>)
  {
    && turn.completed && !turn.error && turn.durationFits && |turn.items| <= MAX_MESSAGES
    && ((turn.view == NotLoaded && turn.items == [])
        || (turn.view == Full && ItemMessages(turn.items) == ms && forall item :: item in turn.items ==> item != Unfit))
    && |ms| > 0 && (forall i, j :: 0 <= i < |ms| && 0 <= j < |ms| && ms[i].id == ms[j].id ==> i == j)
    && (forall i :: 0 <= i < |ms| && ms[i].phase == FinalAnswer ==> i == |ms| - 1)
    && var answer := ms[|ms| - 1];
    answer.phase != Commentary && exists c :: c in answer.text && !Whitespace(c)
  }

  lemma GoodAnswerIffFinalisable(turn: Turn, ms: seq<AgentMessage>)
    ensures GoodAnswer(turn, ms) <==> Finalisable(turn, ms)
  {
  }

  /**
   A turn whose messages and completion come within the bounds: its answer is accepted if and only if it
   is a good one, so the checks of the protocol neither exclude each other nor let anything else through.
  */
  lemma AnswerIsAcceptedIffGood(thread: Id, turn: Turn, ms: seq<AgentMessage>, usage: Usage)
    requires |ms| <= MAX_COMPLETED_MESSAGES && TextBytes(ms) <= MAX_RETAINED_TEXT_BYTES
    requires forall i :: 0 <= i < |ms| ==> Utf8.Scalars(ms[i].text)
    requires usage.cached >= 0 && usage.input >= 0 && usage.output >= 0 && usage.reasoning >= 0
    requires usage.input + usage.output <= usage.total && turn.size <= MAX_RETAINED_TEXT_BYTES
    ensures var stream := Prologue(thread, turn.id) + Streamed(thread, turn.id, ms) + Epilogue(thread, turn, usage);
            Accepts(stream, true)
            == if GoodAnswer(turn, ms) then Some(TurnOutcome(ms[|ms| - 1].text, usage)) else None
  {
    hide GoodAnswer, TextBytes, Streamed, Prologue, Epilogue, Finalisable;
    hide PreparationAnswers, OpeningAnswers, Completion, FlatAnswer;
    GoodAnswerIffFinalisable(turn, ms);
    var rest := Streamed(thread, turn.id, ms) + Epilogue(thread, turn, usage);
    assert Prologue(thread, turn.id) + Streamed(thread, turn.id, ms) + Epilogue(thread, turn, usage)
           == Prologue(thread, turn.id) + rest;
    var begun := Begun(thread, turn.id);
    PrologueOpens(thread, turn.id, rest);
    StreamedHeard(Point(rest, 18, begun, 12), thread, turn.id, ms, Epilogue(thread, turn, usage));
    EpilogueEnds(begun.(messages := ms, retained := TextBytes(ms)), 18 + |ms|, thread, turn, usage);
  }

  lemma Responds(p: Point, result: Result)
    requires p.rest != [] && p.count < MAX_MESSAGES && p.rest[0] == Response(p.nextId, Some(result))
    ensures Answer(p) == Some((result, Point(p.rest[1..], p.count + 1, p.state, p.nextId + 1)))
  {
  }

  /** The first n messages came, and the next request is number `id`. */
  function Given(ms: seq<Message>, rest: seq<Message>, n: nat, state: State, id: nat): Point
    requires n <= |ms|
  {
    Point(ms[n..] + rest, n, state, id)
  }

  lemma GivesNext(ms: seq<Message>, rest: seq<Message>, n: nat, state: State, id: nat, result: Result)
    requires n < |ms| <= MAX_MESSAGES && ms[n] == Response(id, Some(result))
    ensures Answer(Given(ms, rest, n, state, id)) == Some((result, Given(ms, rest, n + 1, state, id + 1)))
  {
    var p := Given(ms, rest, n, state, id);
    Responds(p, result);
    assert p.rest[1..] == ms[n + 1..] + rest;
  }

  lemma GivesNote(ms: seq<Message>, rest: seq<Message>, n: nat, state: State, id: nat, note: Note)
    requires n < |ms| <= MAX_MESSAGES && ms[n] == Notification(note) && Admits(state, note)
    ensures Answer(Given(ms, rest, n, state, id)) == Answer(Given(ms, rest, n + 1, After(state, note), id))
  {
    hide Admits, After;
    var p := Given(ms, rest, n, state, id);
    assert p.rest[1..] == ms[n + 1..] + rest;
  }

  lemma PrologueOpens(thread: Id, turn: Id, rest: seq<Message>)
    ensures var p := PreparationAnswers(Point(Prologue(thread, turn) + rest, 0, IDLE, 1));
            p.Some? && OpeningAnswers(p.value, true) == Some(Point(rest, 18, Begun(thread, turn), 12))
  {
    hide Prologue, PreparationAnswers, OpeningAnswers, Given;
    var all := Prologue(thread, turn);
    assert Given(all, rest, 0, IDLE, 1) == Point(all + rest, 0, IDLE, 1) by { WholeGiven(all, rest); }
    PreparationGiven(thread, turn, rest);
    OpeningGiven(thread, turn, rest);
  }

  lemma WholeGiven(ms: seq<Message>, rest: seq<Message>)
    ensures Given(ms, rest, 0, IDLE, 1) == Point(ms + rest, 0, IDLE, 1)
  {
    assert ms[0..] + rest == ms + rest;
  }

  lemma InquiryGiven(thread: Id, turn: Id, rest: seq<Message>)
    ensures var all := Prologue(thread, turn);
            InquiryAnswers(Given(all, rest, 0, IDLE, 1)) == Some(Given(all, rest, 7, IDLE, 7))
  {
    hide Answer, Given;
    var all := Prologue(thread, turn);
    GivesNext(all, rest, 0, IDLE, 1, Plain(true));
    GivesNext(all, rest, 1, IDLE, 2, Page(true, Some("next")));
    GivesNext(all, rest, 2, IDLE, 3, Page(true, None));
    GivesNext(all, rest, 3, IDLE, 4, Page(true, None));
    GivesNext(all, rest, 4, IDLE, 5, Plain(true));
    GivesNote(all, rest, 5, IDLE, 6, RateLimits);
    GivesNext(all, rest, 6, IDLE, 6, Plain(true));
  }

  lemma DisablingGiven(thread: Id, turn: Id, rest: seq<Message>, up: State)
    requires up == IDLE.(disabling := true)
    ensures var all := Prologue(thread, turn);
            DisablingAnswers(Given(all, rest, 7, up, 7)) == Some(Given(all, rest, 12, up, 10))
  {
    hide Answer, Given;
    var all := Prologue(thread, turn);
    GivesNote(all, rest, 7, up, 7, SkillsChanged);
    GivesNext(all, rest, 8, up, 7, Skills(true, ["skill"], false));
    GivesNote(all, rest, 9, up, 8, SkillsChanged);
    GivesNext(all, rest, 10, up, 8, Plain(true));
    GivesNext(all, rest, 11, up, 9, Skills(true, [], true));
    assert WriteAnswers(Given(all, rest, 9, up, 8), 1) == Some(Given(all, rest, 11, up, 9));
  }

  lemma PreparationGiven(thread: Id, turn: Id, rest: seq<Message>)
    ensures var all := Prologue(thread, turn);
            PreparationAnswers(Given(all, rest, 0, IDLE, 1)) == Some(Given(all, rest, 12, IDLE, 10))
  {
    hide InquiryAnswers, DisablingAnswers;
    InquiryGiven(thread, turn, rest);
    DisablingGiven(thread, turn, rest, IDLE.(disabling := true));
  }

  lemma ThreadGiven(thread: Id, turn: Id, rest: seq<Message>, announced: State)
    requires announced == IDLE.(announcedThread := Some(thread))
    ensures ThreadAnswer(Given(Prologue(thread, turn), rest, 12, IDLE, 10))
            == Some(Given(Prologue(thread, turn), rest, 15, announced.(thread := Some(thread)), 11))
  {
    hide Answer;
    var all := Prologue(thread, turn);
    GivesNote(all, rest, 12, IDLE, 10, RemoteControl(true));
    GivesNote(all, rest, 13, IDLE, 10, ThreadStarted(thread));
    GivesNext(all, rest, 14, announced, 10, Thread(true, thread));
  }

  lemma TurnGiven(thread: Id, turn: Id, rest: seq<Message>, threaded: State)
    requires threaded == IDLE.(announcedThread := Some(thread), thread := Some(thread))
    ensures TurnAnswer(Given(Prologue(thread, turn), rest, 15, threaded, 11))
            == Some(Given(Prologue(thread, turn), rest, 18, Begun(thread, turn), 12))
  {
    hide Answer;
    var all := Prologue(thread, turn);
    GivesNote(all, rest, 15, threaded, 11, StatusChanged(thread));
    GivesNote(all, rest, 16, threaded, 11, TurnStarted(thread, turn));
    GivesNext(all, rest, 17, threaded.(announcedTurn := Some(turn)), 11, Started(turn, true));
  }

  lemma OpeningGiven(thread: Id, turn: Id, rest: seq<Message>)
    ensures OpeningAnswers(Given(Prologue(thread, turn), rest, 12, IDLE, 10), true)
            == Some(Point(rest, 18, Begun(thread, turn), 12))
  {
    hide Given, ThreadAnswer, TurnAnswer;
    var announced := IDLE.(announcedThread := Some(thread));
    ThreadGiven(thread, turn, rest, announced);
    TurnGiven(thread, turn, rest, announced.(thread := Some(thread)));
    AllGiven(Prologue(thread, turn), rest, Begun(thread, turn));
  }

  lemma AllGiven(ms: seq<Message>, rest: seq<Message>, state: State)
    requires |ms| == 18
    ensures Given(ms, rest, 18, state, 12) == Point(rest, 18, state, 12)
  {
    assert ms[18..] + rest == rest;
  }

  lemma {:induction false} StreamedHeard(p: Point, thread: Id, turn: Id, ms: seq<AgentMessage>, tail: seq<Message>)
    requires p.rest == Streamed(thread, turn, ms) + tail && Matches(p.state, thread, turn) && p.state.completion.None?
    requires p.state.messages == [] && p.state.retained == 0 && p.count + |ms| <= MAX_MESSAGES
    requires |ms| <= MAX_COMPLETED_MESSAGES && TextBytes(ms) <= MAX_RETAINED_TEXT_BYTES
    requires forall i :: 0 <= i < |ms| ==> Utf8.Scalars(ms[i].text)
    ensures Completion(p)
            == Completion(Point(tail, p.count + |ms|, p.state.(messages := ms, retained := TextBytes(ms)), p.nextId))
    decreases |ms|
  {
    hide Completion;
    if ms == [] {
      assert p.rest == tail;
    } else {
      var init, last := ms[..|ms| - 1], ms[|ms| - 1];
      var item := Notification(ItemCompleted(thread, turn, Agent(last)));
      assert p.rest == Streamed(thread, turn, init) + ([item] + tail);
      StreamedHeard(p, thread, turn, init, [item] + tail);
      ItemHeard(p.(rest := [item] + tail, count := p.count + |init|,
                   state := p.state.(messages := init, retained := TextBytes(init))), thread, turn, last);
      assert ([item] + tail)[1..] == tail && init + [last] == ms;
    }
  }

  lemma ItemHeard(p: Point, thread: Id, turn: Id, m: AgentMessage)
    requires p.rest != [] && p.rest[0] == Notification(ItemCompleted(thread, turn, Agent(m)))
    requires p.count < MAX_MESSAGES && Matches(p.state, thread, turn) && p.state.completion.None?
    requires Room(p.state, Agent(m))
    ensures Completion(p) == Completion(Point(p.rest[1..], p.count + 1,
              p.state.(messages := p.state.messages + [m], retained := p.state.retained + |Utf8.Encode(m.text)|),
              p.nextId))
  {
  }

  lemma EpilogueEnds(s: State, count: nat, thread: Id, turn: Turn, usage: Usage)
    requires Matches(s, thread, turn.id) && s.completion.None? && Consistent(usage) && count + 3 <= MAX_MESSAGES
    requires turn.size <= MAX_RETAINED_TEXT_BYTES
    ensures var p := Completion(Point(Epilogue(thread, turn, usage), count, s, 12));
            && p.Some? && p.value.state.completion == Some(turn) && p.value.state.messages == s.messages
            && FlatAnswer(p.value).Some? && FlatAnswer(p.value).value.state.usage == Some(usage)
  {
    hide Reply;
    var p := Point(Epilogue(thread, turn, usage), count, s, 12);
    var q := Point(p.rest[1..], count + 1, s.(usage := Some(usage)), 12);
    assert Next(p) == Some((p.rest[0], q));
    var t := Point(q.rest[1..], count + 2, q.state.(completion := Some(turn)), 12);
    assert Next(q) == Some((q.rest[0], t));
    assert Completion(t) == Some(t);
    Responds(t, Plain(true));
  }

  // ---------- Every catalogue within the limit can be listed ----------

  /** A catalogue of one page more than it has cursors, from request `id` on. */
  function Catalogue(cursors: seq<Id>, id: nat): seq<Message>
  {
    if cursors == [] then [Response(id, Some(Page(true, None)))]
    else [Response(id, Some(Page(true, Some(cursors[0]))))] + Catalogue(cursors[1..], id + 1)
  }

  predicate Fresh(cursors: seq<Id>, seen: set<Id>)
  {
    && (forall i :: 0 <= i < |cursors| ==> cursors[i] !in seen)
    && forall i, j :: 0 <= i < j < |cursors| ==> cursors[i] != cursors[j]
  }

  lemma FreshFirst(cursors: seq<Id>, seen: set<Id>)
    requires cursors != []
    ensures Fresh(cursors, seen) <==> cursors[0] !in seen && Fresh(cursors[1..], seen + {cursors[0]})
  {
    var later := cursors[1..];
    assert forall i :: 0 <= i < |later| ==> later[i] == cursors[i + 1];
    if cursors[0] !in seen && Fresh(later, seen + {cursors[0]}) {
      forall i, j | 0 <= i < j < |cursors|
        ensures cursors[i] != cursors[j] && cursors[j] !in seen
      {
        assert cursors[j] == later[j - 1];
        if i > 0 { assert cursors[i] == later[i - 1]; }
      }
    }
    if Fresh(cursors, seen) {
      forall i | 0 <= i < |later|
        ensures later[i] !in seen + {cursors[0]}
      {
        assert later[i] == cursors[i + 1];
      }
    }
  }

  /** From page `page` on, a catalogue is listed if and only if no cursor comes twice and its pages are at most 64. */
  lemma {:induction false} CatalogueListedIff(p: Point, cursors: seq<Id>, tail: seq<Message>, seen: set<Id>, page: nat)
    requires p.rest == Catalogue(cursors, p.nextId) + tail && p.count + |cursors| < MAX_MESSAGES
    ensures PageAnswers(p, seen, page).Some? <==> Fresh(cursors, seen) && page + |cursors| < 64
    decreases |cursors|
  {
    if page < MAX_PAGES {
      if cursors == [] {
        Responds(p, Page(true, None));
      } else {
        Responds(p, Page(true, Some(cursors[0])));
        FreshFirst(cursors, seen);
        var q := Answer(p).value.1;
        assert q.rest == Catalogue(cursors[1..], q.nextId) + tail;
        CatalogueListedIff(q, cursors[1..], tail, seen + {cursors[0]}, page + 1);
      }
    }
  }

  // ---------- Messages that change nothing ----------

  /** The session once its turn was answered. */
  function Begin(p: Point): Option<Point>
  {
    var prepared :- PreparationAnswers(p);
    OpeningAnswers(prepared, true)
  }

  /** How many messages came until the turn was answered, until it was completed, and were counted in all. */
  datatype Span = Span(answered: nat, completed: nat, all: nat)

  function Spans(stream: seq<Message>): Option<Span>
  {
    var begun :- Begin(Point(stream, 0, IDLE, 1));
    var completed :- Completion(begun);
    var closed :- FlatAnswer(completed);
    if |stream| < |begun.rest| || |stream| < |completed.rest| then None
    else Some(Span(|stream| - |begun.rest|, |stream| - |completed.rest|, closed.count))
  }

  /** A notification that says nothing about the answer, about this thread and turn if about any. */
  predicate Harmless(note: Note, thread: Id, turn: Id)
  {
    || note == RateLimits || note == RemoteControl(true) || note == StatusChanged(thread)
    || note == Ignored(thread, turn)
    || (note.ItemStarted? && note == ItemStarted(thread, turn, note.item) && note.item != Unfit)
    || note == ItemCompleted(thread, turn, Other)
  }

  predicate Suffix(q: seq<Message>, p: seq<Message>) { |q| <= |p| && p[|p| - |q|..] == q }

  /** The point `p` with another tail after the messages that lead to `q`. */
  function WithTail(p: Point, q: Point, tail: seq<Message>): Point
    requires Suffix(q.rest, p.rest)
  {
    p.(rest := p.rest[..|p.rest| - |q.rest|] + tail)
  }

  lemma Joins(p: Point, m: Point, q: Point, tail: seq<Message>)
    requires Suffix(m.rest, p.rest) && Suffix(q.rest, m.rest)
    ensures Suffix(q.rest, p.rest)
    ensures WithTail(p, q, tail) == WithTail(p, m, WithTail(m, q, tail).rest)
  {
    assert p.rest[|p.rest| - |q.rest|..] == m.rest[|m.rest| - |q.rest|..];
    assert p.rest[..|p.rest| - |q.rest|]
           == p.rest[..|p.rest| - |m.rest|] + m.rest[..|m.rest| - |q.rest|];
  }

  // What a session decides depends only on the messages it takes, and before the turn has an id none completes it.

  predicate Unfinished(p: Point) { p.state.turn.None? && p.state.completion.None? }

  lemma NextUnfinished(p: Point)
    requires Unfinished(p) && Next(p).Some?
    ensures Unfinished(Next(p).value.1)
  {
  }

  /** The first message is heard alike whatever comes after `q`. */
  lemma NextIsLocal(p: Point, q: Point, tail: seq<Message>)
    requires Next(p).Some? && Suffix(q.rest, Next(p).value.1.rest)
    ensures Suffix(q.rest, p.rest)
    ensures Next(WithTail(p, q, tail)) == Some((Next(p).value.0, WithTail(Next(p).value.1, q, tail)))
  {
    hide Hearable, Handled;
    var next := Next(p).value.1;
    Joins(p, next, q, tail);
    assert WithTail(p, q, tail).rest[0] == p.rest[0];
    assert WithTail(p, q, tail).rest[1..] == WithTail(next, q, tail).rest;
  }

  lemma WholeTail(q: Point, tail: seq<Message>)
    ensures Suffix(q.rest, q.rest) && WithTail(q, q, tail) == q.(rest := tail)
  {
    assert q.rest[..0] + tail == tail;
  }

  lemma {:induction false} ReplyIsLocal(p: Point, id: nat, tail: seq<Message>)
    requires Reply(p, id).Some?
    ensures var (result, q) := Reply(p, id).value;
            Suffix(q.rest, p.rest) && Reply(WithTail(p, q, tail), id) == Some((result, q.(rest := tail)))
    ensures Unfinished(p) ==> var (result, q) := Reply(p, id).value; Unfinished(q)
    decreases |p.rest|
  {
    hide Suffix, WithTail, Unfinished, Next;
    var (m, next) := Next(p).value;
    var q := Reply(p, id).value.1;
    if Unfinished(p) { NextUnfinished(p); }
    if m.Response? { WholeTail(next, tail); } else { ReplyIsLocal(next, id, tail); }
    NextIsLocal(p, q, tail);
  }

  lemma AnswerIsLocal(p: Point, tail: seq<Message>)
    requires Answer(p).Some?
    ensures var (result, q) := Answer(p).value;
            Suffix(q.rest, p.rest) && Answer(WithTail(p, q, tail)) == Some((result, q.(rest := tail)))
    ensures Unfinished(p) ==> var (result, q) := Answer(p).value; Unfinished(q)
  {
    hide Reply;
    ReplyIsLocal(p.(nextId := p.nextId + 1), p.nextId, tail);
  }

  lemma FlatIsLocal(p: Point, tail: seq<Message>)
    requires FlatAnswer(p).Some?
    ensures var q := FlatAnswer(p).value;
            Suffix(q.rest, p.rest) && FlatAnswer(WithTail(p, q, tail)) == Some(q.(rest := tail))
    ensures Unfinished(p) ==> var q := FlatAnswer(p).value; Unfinished(q)
  {
    hide Answer;
    AnswerIsLocal(p, tail);
  }

  lemma {:induction false} PagesAreLocal(p: Point, seen: set<Id>, page: nat, tail: seq<Message>)
    requires PageAnswers(p, seen, page).Some?
    ensures var q := PageAnswers(p, seen, page).value;
            Suffix(q.rest, p.rest) && PageAnswers(WithTail(p, q, tail), seen, page) == Some(q.(rest := tail))
    ensures Unfinished(p) ==> var q := PageAnswers(p, seen, page).value; Unfinished(q)
    decreases MAX_PAGES - page
  {
    hide Answer;
    var (result, next) := Answer(p).value;
    var q := PageAnswers(p, seen, page).value;
    if result.next.None? {
      AnswerIsLocal(p, tail);
    } else {
      PagesAreLocal(next, seen + {result.next.value}, page + 1, tail);
      AnswerIsLocal(p, WithTail(next, q, tail).rest);
      Joins(p, next, q, tail);
    }
  }

  lemma SkillsAreLocal(p: Point, tail: seq<Message>)
    requires SkillsAnswer(p).Some?
    ensures var (result, q) := SkillsAnswer(p).value;
            Suffix(q.rest, p.rest) && SkillsAnswer(WithTail(p, q, tail)) == Some((result, q.(rest := tail)))
    ensures Unfinished(p) ==> var (result, q) := SkillsAnswer(p).value; Unfinished(q)
  {
    hide Answer;
    AnswerIsLocal(p, tail);
  }

  lemma {:induction false} WritesAreLocal(p: Point, writes: nat, tail: seq<Message>)
    requires WriteAnswers(p, writes).Some?
    ensures var q := WriteAnswers(p, writes).value;
            Suffix(q.rest, p.rest) && WriteAnswers(WithTail(p, q, tail), writes) == Some(q.(rest := tail))
    ensures Unfinished(p) ==> var q := WriteAnswers(p, writes).value; Unfinished(q)
    decreases writes
  {
    hide FlatAnswer;
    if writes > 0 {
      var next, q := FlatAnswer(p).value, WriteAnswers(p, writes).value;
      WritesAreLocal(next, writes - 1, tail);
      FlatIsLocal(p, WithTail(next, q, tail).rest);
      Joins(p, next, q, tail);
    } else {
      assert WithTail(p, p, tail).rest == tail;
    }
  }

  lemma DisablingIsLocal(p: Point, tail: seq<Message>)
    requires DisablingAnswers(p).Some?
    ensures var q := DisablingAnswers(p).value;
            Suffix(q.rest, p.rest) && DisablingAnswers(WithTail(p, q, tail)) == Some(q.(rest := tail))
    ensures Unfinished(p) ==> var q := DisablingAnswers(p).value; Unfinished(q)
  {
    hide SkillsAnswer, WriteAnswers;
    var (skills, listed) := SkillsAnswer(p).value;
    var written := WriteAnswers(listed, |skills.enabled|).value;
    var q := SkillsAnswer(written).value.1;
    SkillsAreLocal(written, tail);
    WritesAreLocal(listed, |skills.enabled|, WithTail(written, q, tail).rest);
    Joins(listed, written, q, tail);
    SkillsAreLocal(p, WithTail(listed, q, tail).rest);
    Joins(p, listed, q, tail);
  }

  lemma CatalogueIsLocal(p: Point, tail: seq<Message>)
    requires CatalogueAnswers(p).Some?
    ensures var q := CatalogueAnswers(p).value;
            Suffix(q.rest, p.rest) && CatalogueAnswers(WithTail(p, q, tail)) == Some(q.(rest := tail))
    ensures Unfinished(p) ==> var q := CatalogueAnswers(p).value; Unfinished(q)
  {
    hide FlatAnswer, PageAnswers;
    var initialised := FlatAnswer(p).value;
    var models := PageAnswers(initialised, {}, 0).value;
    var q := PageAnswers(models, {}, 0).value;
    PagesAreLocal(models, {}, 0, tail);
    PagesAreLocal(initialised, {}, 0, WithTail(models, q, tail).rest);
    Joins(initialised, models, q, tail);
    FlatIsLocal(p, WithTail(initialised, q, tail).rest);
    Joins(p, initialised, q, tail);
  }

  lemma InquiryIsLocal(p: Point, tail: seq<Message>)
    requires InquiryAnswers(p).Some?
    ensures var q := InquiryAnswers(p).value;
            Suffix(q.rest, p.rest) && InquiryAnswers(WithTail(p, q, tail)) == Some(q.(rest := tail))
    ensures Unfinished(p) ==> var q := InquiryAnswers(p).value; Unfinished(q)
  {
    hide FlatAnswer, CatalogueAnswers;
    var catalogue := CatalogueAnswers(p).value;
    var account := FlatAnswer(catalogue).value;
    var q := FlatAnswer(account).value;
    FlatIsLocal(account, tail);
    FlatIsLocal(catalogue, WithTail(account, q, tail).rest);
    Joins(catalogue, account, q, tail);
    CatalogueIsLocal(p, WithTail(catalogue, q, tail).rest);
    Joins(p, catalogue, q, tail);
  }

  lemma PreparationIsLocal(p: Point, tail: seq<Message>)
    requires PreparationAnswers(p).Some?
    ensures var q := PreparationAnswers(p).value;
            Suffix(q.rest, p.rest) && PreparationAnswers(WithTail(p, q, tail)) == Some(q.(rest := tail))
    ensures Unfinished(p) ==> var q := PreparationAnswers(p).value; Unfinished(q)
  {
    hide InquiryAnswers, DisablingAnswers;
    var limits := InquiryAnswers(p).value;
    var up := Disabling(limits, true);
    var q := DisablingAnswers(up).value;
    DisablingIsLocal(up, tail);
    InquiryIsLocal(p, WithTail(up, q, tail).rest);
    Joins(p, limits, q, tail);
  }

  lemma OpeningIsLocal(p: Point, tail: seq<Message>)
    requires OpeningAnswers(p, true).Some?
    ensures var q := OpeningAnswers(p, true).value;
            Suffix(q.rest, p.rest) && OpeningAnswers(WithTail(p, q, tail), true) == Some(q.(rest := tail))
    ensures Unfinished(p) ==> var q := OpeningAnswers(p, true).value; q.state.completion.None?
  {
    hide Answer;
    var thread := ThreadAnswer(p).value;
    var q := TurnAnswer(thread).value;
    AnswerIsLocal(thread, tail);
    AnswerIsLocal(p, WithTail(thread, q, tail).rest);
    Joins(p, thread, q, tail);
  }

  lemma BeginningIsLocal(p: Point, tail: seq<Message>)
    requires Begin(p).Some?
    ensures var q := Begin(p).value; Suffix(q.rest, p.rest) && Begin(WithTail(p, q, tail)) == Some(q.(rest := tail))
    ensures Unfinished(p) ==> var q := Begin(p).value; q.state.completion.None?
  {
    hide PreparationAnswers, OpeningAnswers;
    var prepared := PreparationAnswers(p).value;
    var q := OpeningAnswers(prepared, true).value;
    OpeningIsLocal(prepared, tail);
    PreparationIsLocal(p, WithTail(prepared, q, tail).rest);
    Joins(p, prepared, q, tail);
  }

  // One message more before them changes nothing but the count, as long as the limit is not reached.

  function OneLater(p: Point): Point { p.(count := p.count + 1) }

  lemma {:induction false} ReplyOneLater(p: Point, id: nat)
    requires Reply(p, id).Some? && Reply(p, id).value.1.count < MAX_MESSAGES
    ensures var (result, q) := Reply(p, id).value;
            q.count > p.count && Reply(OneLater(p), id) == Some((result, OneLater(q)))
    decreases |p.rest|
  {
    hide Hearable, Handled;
    var (m, next) := Next(p).value;
    if !m.Response? { ReplyOneLater(next, id); }
  }

  lemma {:induction false} CompletionOneLater(p: Point)
    requires Completion(p).Some? && Completion(p).value.count < MAX_MESSAGES
    ensures p.count <= Completion(p).value.count && Completion(OneLater(p)) == Some(OneLater(Completion(p).value))
    decreases |p.rest|
  {
    hide Hearable, Handled;
    if p.state.completion.None? { CompletionOneLater(Next(p).value.1); }
  }

  lemma FlatOneLater(p: Point)
    requires FlatAnswer(p).Some? && FlatAnswer(p).value.count < MAX_MESSAGES
    ensures FlatAnswer(p).value.count > p.count && FlatAnswer(OneLater(p)) == Some(OneLater(FlatAnswer(p).value))
  {
    hide Reply;
    ReplyOneLater(p.(nextId := p.nextId + 1), p.nextId);
  }

  function Inserted(p: Point, k: nat, note: Note): Point
    requires k <= |p.rest|
  {
    p.(rest := p.rest[..k] + [Notification(note)] + p.rest[k..])
  }

  lemma HarmlessIsHeard(p: Point, note: Note, thread: Id, turn: Id)
    requires Harmless(note, thread, turn) && Matches(p.state, thread, turn) && p.count < MAX_MESSAGES
    ensures Next(Inserted(p, 0, note)) == Some((Notification(note), OneLater(p)))
  {
    assert Inserted(p, 0, note).rest[1..] == p.rest;
  }

  lemma HandledInScope(s: State, m: Message, thread: Id, turn: Id)
    requires Matches(s, thread, turn)
    ensures Matches(Handled(s, m), thread, turn)
  {
  }

  /** One more of them before message k of the wait for the turn changes nothing but the count. */
  lemma {:induction false} CompletionInserted(p: Point, k: nat, note: Note, thread: Id, turn: Id)
    requires Completion(p).Some? && Completion(p).value.count < MAX_MESSAGES && p.state.completion.None?
    requires Harmless(note, thread, turn) && Matches(p.state, thread, turn)
    requires k + |Completion(p).value.rest| < |p.rest|
    ensures Completion(Inserted(p, k, note)) == Some(OneLater(Completion(p).value))
    decreases k
  {
    hide Hearable, Handled, Harmless, Matches;
    if k == 0 {
      CompletionOneLater(p);
      HarmlessIsHeard(p, note, thread, turn);
    } else {
      var (m, q) := Next(p).value;
      HandledInScope(p.state, m, thread, turn);
      assert Inserted(p, k, note).rest[0] == p.rest[0];
      assert Inserted(p, k, note).rest[1..] == Inserted(q, k - 1, note).rest;
      CompletionInserted(q, k - 1, note, thread, turn);
    }
  }

  /** The message completes the turn that this state is about. */
  predicate Completes(s: State, m: Message)
  {
    m.Notification? && m.note.TurnCompleted? && Matches(s, m.note.thread, m.note.turn.id)
  }

  /** The first message completes the turn, or the wait goes on with the same thread and turn. */
  lemma NextCompletes(p: Point)
    requires p.state.completion.None? && Next(p).Some? && Next(p).value.0.Notification?
    ensures var q := Next(p).value.1;
            && p.rest != [] && q.rest == p.rest[1..]
            && (if q.state.completion.Some? then Completes(p.state, p.rest[0])
                else q.state.thread == p.state.thread && q.state.turn == p.state.turn)
  {
  }

  lemma {:induction false} CompletionIsLast(p: Point)
    requires Completion(p).Some?
    ensures Suffix(Completion(p).value.rest, p.rest)
    ensures p.state.completion.None? ==>
              && |Completion(p).value.rest| < |p.rest|
              && Completes(p.state, p.rest[|p.rest| - |Completion(p).value.rest| - 1])
    decreases |p.rest|
  {
    hide Next, Suffix;
    var done := Completion(p).value.rest;
    if p.state.completion.None? {
      var q := Next(p).value.1;
      NextCompletes(p);
      CompletionIsLast(q);
      LastShifts(p.rest, done);
      hide Completion;
    } else {
      WholeTail(p, []);
    }
  }

  lemma LastShifts(all: seq<Message>, done: seq<Message>)
    requires all != [] && Suffix(done, all[1..])
    ensures Suffix(done, all)
    ensures |done| < |all| - 1 ==> all[|all| - |done| - 1] == all[1..][|all[1..]| - |done| - 1]
  {
    assert all[1..][|all| - 1 - |done|..] == all[|all| - |done|..];
  }

  /** In an accepted stream the turn is answered before it is completed, and its completion ends the wait. */
  lemma BegunAccepted(stream: seq<Message>, accounting: bool)
    requires Accepts(stream, accounting).Some?
    ensures accounting && Spans(stream).Some?
    ensures Spans(stream).value.answered < Spans(stream).value.completed <= |stream|
    ensures var last := stream[Spans(stream).value.completed - 1]; last.Notification? && last.note.TurnCompleted?
  {
    hide PreparationAnswers, ThreadAnswer, TurnAnswer, Completion, FlatAnswer, Finalisable;
    var p := Point(stream, 0, IDLE, 1);
    BeginningIsLocal(p, []);
    CompletionIsLast(Begin(p).value);
  }

  /**
   A notification that says nothing, anywhere between the answer to the turn's request and the turn's
   completion, changes neither acceptance nor the outcome, as long as the limit on messages is not reached.
  */
  lemma HarmlessInserted(stream: seq<Message>, accounting: bool, i: nat, note: Note, thread: Id, turn: Turn)
    requires Accepts(stream, accounting).Some?
    requires Spans(stream).Some? && Spans(stream).value.all < MAX_MESSAGES
    requires Spans(stream).value.answered <= i < Spans(stream).value.completed <= |stream|
    requires stream[Spans(stream).value.completed - 1] == Notification(TurnCompleted(thread, turn))
    requires Harmless(note, thread, turn.id)
    ensures Accepts(stream[..i] + [Notification(note)] + stream[i..], accounting) == Accepts(stream, accounting)
  {
    hide PreparationAnswers, OpeningAnswers, Completion, FlatAnswer, FromBegun, Harmless, Unfinished;
    var p := Point(stream, 0, IDLE, 1);
    var begun := Begin(p).value;
    var k := i - Spans(stream).value.answered;
    var longer := stream[..i] + [Notification(note)] + stream[i..];
    assert Inserted(p, i, note) == Point(longer, 0, IDLE, 1);
    BeginningIsLocal(p, Inserted(begun, k, note).rest);
    CompletionIsLast(begun);
    SettledByCompletion(begun);
    InsertedBehind(p, begun, k, note, |begun.rest| - |Completion(begun).value.rest| - 1);
    hide Suffix, WithTail, Inserted;
    OutcomeInserted(begun, k, note, thread, turn.id);
    AcceptsFromBegun(stream, accounting);
    AcceptsFromBegun(longer, accounting);
  }

  lemma InsertedBehind(p: Point, q: Point, k: nat, note: Note, j: nat)
    requires Suffix(q.rest, p.rest) && k <= |q.rest| && j < |q.rest|
    ensures WithTail(p, q, Inserted(q, k, note).rest) == Inserted(p, |p.rest| - |q.rest| + k, note)
    ensures q.rest[j] == p.rest[|p.rest| - |q.rest| + j]
  {
    SplitBehind(p.rest, q.rest, k);
    hide Suffix;
    FourParts(p.rest[..|p.rest| - |q.rest|], q.rest[..k], [Notification(note)], q.rest[k..]);
  }

  lemma FourParts(a: seq<Message>, b: seq<Message>, c: seq<Message>, d: seq<Message>)
    ensures a + (b + c + d) == a + b + c + d
  {
  }

  lemma SplitBehind(all: seq<Message>, tail: seq<Message>, k: nat)
    requires Suffix(tail, all) && k <= |tail|
    ensures var from := |all| - |tail|;
            && all[..from + k] == all[..from] + tail[..k] && all[from + k..] == tail[k..]
            && forall j :: 0 <= j < |tail| ==> tail[j] == all[from + j]
  {
    var from := |all| - |tail|;
    assert all == all[..from] + tail;
  }

  /** What is left of `Accepts` once the turn was answered. */
  function FromBegun(begun: Point): Option<TurnOutcome>
  {
    var q :- Completion(begun);
    if q.state.completion.None? || !Finalisable(q.state.completion.value, q.state.messages) then None else
    var closed :- FlatAnswer(q);
    var usage :- closed.state.usage;
    Some(TurnOutcome(q.state.messages[|q.state.messages| - 1].text, usage))
  }

  lemma AcceptsFromBegun(stream: seq<Message>, accounting: bool)
    requires Begin(Point(stream, 0, IDLE, 1)).Some?
    ensures Accepts(stream, accounting)
            == if accounting then FromBegun(Begin(Point(stream, 0, IDLE, 1)).value) else None
  {
    hide PreparationAnswers, ThreadAnswer, TurnAnswer, Completion, FlatAnswer, Finalisable;
  }

  lemma OutcomeInserted(begun: Point, k: nat, note: Note, thread: Id, turn: Id)
    requires Completion(begun).Some? && begun.state.completion.None?
    requires FlatAnswer(Completion(begun).value).Some? && FlatAnswer(Completion(begun).value).value.count < MAX_MESSAGES
    requires Harmless(note, thread, turn) && Matches(begun.state, thread, turn)
    requires k + |Completion(begun).value.rest| < |begun.rest|
    ensures FromBegun(Inserted(begun, k, note)) == FromBegun(begun)
  {
    hide Completion, FlatAnswer, Finalisable, Harmless, Matches;
    FlatOneLater(Completion(begun).value);
    CompletionInserted(begun, k, note, thread, turn);
  }

  lemma SettledByCompletion(p: Point)
    requires Completion(p).Some? && |Completion(p).value.rest| < |p.rest|
    ensures p.state.completion.None?
  {
  }
}
