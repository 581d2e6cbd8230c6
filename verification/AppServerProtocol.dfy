/**
 One turn with the Codex app-server: the request/response session, the notification handler and the
 finalisation of the turn.

 The session and the protocol object are one class here. The server's messages are given as a list,
 decoded; a message that does not decode is Garbage, and after the last one the pipe is closed. What a
 preparatory call demands of its reply enters as a flag in the reply. Rate limits are not modelled.
 An exception is a method that returns false, or None.
*/
module AppServerProtocol {
  import opened Bytes
  import opened Options
  import Utf8

  const MAX_MESSAGES := 20_000
  const MAX_PAGES := 64
  const MAX_COMPLETED_MESSAGES := 64
  const MAX_RETAINED_TEXT_BYTES := 8 * 1024 * 1024

  type Id = string
  datatype Phase = Unphased | Commentary | FinalAnswer
  datatype AgentMessage = AgentMessage(id: Id, phase: Phase, text: Text)
  datatype Usage = Usage(cached: int, input: int, output: int, reasoning: int, total: int)

  /** An agent message whose phase is unknown, or an item of a type that is not allowed, is Unfit. */
  datatype Item = Agent(message: AgentMessage) | Other | Unfit
  datatype View = Full | NotLoaded | UnknownView
  /** `size` is the length of the turn's canonical JSON. */
  datatype Turn = Turn(id: Id, completed: bool, error: bool, view: View, items: seq<Item>, size: nat,
          durationFits: bool)

  datatype Note =
    | RateLimits
    | SkillsChanged
    | RemoteControl(disabled: bool)
    | ThreadStarted(thread: Id)
    | TurnStarted(thread: Id, announced: Id)
    | TokenUsage(thread: Id, turnId: Id, usage: Usage)
    | ItemStarted(thread: Id, turnId: Id, item: Item)
    | ItemCompleted(thread: Id, turnId: Id, item: Item)
    | TurnCompleted(thread: Id, turn: Turn)
    | Ignored(thread: Id, turnId: Id)
    | StatusChanged(thread: Id)
    | Refused

  datatype Result =
    | Plain(fits: bool)
    | Page(fits: bool, next: Option<Id>)
    | Skills(fits: bool, enabled: seq<string>, allDisabled: bool)
    | Thread(fits: bool, id: Id)
    | Started(id: Id, inProgress: bool)

  datatype Message = Notification(note: Note) | Response(id: nat, result: Option<Result>) | ServerRequest | Garbage

  datatype Request =
    | Initialize | Initialized | ModelList(cursor: Option<Id>) | PermissionList(cursor: Option<Id>) | AccountRead
    | RateLimitsRead | SkillsList | SkillsWrite(path: string) | ThreadStart | TurnStart(thread: Id, prompt: string)

  /** A request that went out, how many messages had come in before it did, and its id, 0 for a notification. */
  datatype Sent = Sent(request: Request, heardBefore: nat, id: nat)
  /** A call of `on_dispatched`: how many requests were out, and how many messages in. */
  datatype Dispatch = Dispatch(sent: nat, heard: nat)
  datatype TurnOutcome = TurnOutcome(output: Text, tokens: Usage)

  // ---------- What a list of messages says ----------

  /** The agent messages that were completed, in order. */
  function Agents(ms: seq<Message>): seq<AgentMessage>
  {
    if ms == [] then [] else
      Agents(ms[..|ms| - 1]) +
      match ms[|ms| - 1]
      case Notification(ItemCompleted(_, _, Agent(message))) => [message]
      case _ => []
  }

  function LastUsage(ms: seq<Message>): Option<Usage>
  {
    if ms == [] then None else
      match ms[|ms| - 1]
      case Notification(TokenUsage(_, _, usage)) => Some(usage)
      case _ => LastUsage(ms[..|ms| - 1])
  }

  function TextBytes(ms: seq<AgentMessage>): nat
  {
    if ms == [] then 0 else TextBytes(ms[..|ms| - 1]) + |Utf8.Encode(ms[|ms| - 1].text)|
  }

  /** The completions of turns among these messages. */
  function Completions(ms: seq<Message>): seq<Note>
  {
    if ms == [] then [] else
      Completions(ms[..|ms| - 1]) +
      match ms[|ms| - 1]
      case Notification(TurnCompleted(thread, turn)) => [TurnCompleted(thread, turn)]
      case _ => []
  }

  predicate DistinctIds(ms: seq<AgentMessage>)
  {
    forall i, j :: 0 <= i < j < |ms| ==> ms[i].id != ms[j].id
  }

  predicate Whitespace(n: CodePoint)
  {
    || 9 <= n <= 13 || 28 <= n <= 32 || 0x2000 <= n <= 0x200A
    || n in {0x85, 0xA0, 0x1680, 0x2028, 0x2029, 0x202F, 0x205F, 0x3000}
  }

  predicate Blank(text: Text) { forall c :: c in text ==> Whitespace(c) }

  function ItemMessages(items: seq<Item>): seq<AgentMessage>
  {
    if items == [] then [] else
      ItemMessages(items[..|items| - 1]) + match items[|items| - 1] case Agent(message) => [message] case _ => []
  }

  /**
   A turn that can be finalised after these messages: it completed without error, its own list of
   messages, if it has one, is the one that was streamed, and the last message is the answer.
  */
  predicate Finalisable(turn: Turn, messages: seq<AgentMessage>)
  {
    && turn.completed && !turn.error && turn.durationFits && |turn.items| <= MAX_MESSAGES
    && (match turn.view
        case NotLoaded => turn.items == []
        case Full => Unfit !in turn.items && ItemMessages(turn.items) == messages
        case UnknownView => false)
    && Answered(messages)
  }

  /** The last message is the answer: not blank, not commentary, and no other message claims to be final. */
  predicate Answered(messages: seq<AgentMessage>)
  {
    && messages != [] && DistinctIds(messages)
    && messages[|messages| - 1].phase != Commentary && !Blank(messages[|messages| - 1].text)
    && forall i :: 0 <= i < |messages| - 1 ==> messages[i].phase != FinalAnswer
  }

  // ---------- The handler's state ----------

  datatype State = State(thread: Option<Id>, announcedThread: Option<Id>, turn: Option<Id>, announcedTurn: Option<Id>,
                         completion: Option<Turn>, messages: seq<AgentMessage>, retained: nat, usage: Option<Usage>,
                         disabling: bool)

  predicate Matches(s: State, thread: Id, turn: Id) { s.thread == Some(thread) && s.turn == Some(turn) }

  predicate Room(s: State, item: Item)
  {
    item.Agent? ==>
      && |s.messages| < MAX_COMPLETED_MESSAGES && Utf8.Scalars(item.message.text)
      && s.retained + |Utf8.Encode(item.message.text)| <= MAX_RETAINED_TEXT_BYTES
  }

  predicate Consistent(u: Usage)
  {
    u.cached >= 0 && u.input >= 0 && u.output >= 0 && u.reasoning >= 0 && u.total >= u.input + u.output
  }

  /** The notifications that are tolerated in a state. */
  predicate Admits(s: State, note: Note)
  {
    match note
    case RateLimits => true
    case SkillsChanged => s.disabling
    case RemoteControl(disabled) => disabled
    case ThreadStarted(_) => s.announcedThread.None?
    case TurnStarted(thread, _) => s.thread == Some(thread) && s.announcedTurn.None?
    case TokenUsage(thread, turn, usage) => Matches(s, thread, turn) && Consistent(usage)
    case ItemStarted(thread, turn, item) => Matches(s, thread, turn) && !item.Unfit?
    case ItemCompleted(thread, turn, item) => Matches(s, thread, turn) && !item.Unfit? && Room(s, item)
    case TurnCompleted(thread, turn) =>
      Matches(s, thread, turn.id) && s.completion.None? && turn.size <= MAX_RETAINED_TEXT_BYTES
    case Ignored(thread, turn) => Matches(s, thread, turn)
    case StatusChanged(thread) => s.thread == Some(thread)
    case Refused => false
  }

  /** The messages that do not end the session: responses, and notifications that are tolerated. */
  predicate Hearable(s: State, m: Message)
  {
    match m
    case Notification(note) => Admits(s, note)
    case Response(_, _) => true
    case ServerRequest => false
    case Garbage => false
  }

  function After(s: State, note: Note): State
  {
    match note
    case ThreadStarted(thread) => s.(announcedThread := Some(thread))
    case TurnStarted(_, announced) => s.(announcedTurn := Some(announced))
    case TokenUsage(_, _, usage) => s.(usage := Some(usage))
    case ItemCompleted(_, _, Agent(m)) =>
      s.(messages := s.messages + [m], retained := s.retained + |Utf8.Encode(m.text)|)
    case TurnCompleted(_, turn) => s.(completion := Some(turn))
    case _ => s
  }

  /** The thread and turn that a notification is about, if it is about a turn that is going on. */
  function TurnOf(note: Note): Option<(Id, Id)>
  {
    match note
    case TokenUsage(thread, turn, _) => Some((thread, turn))
    case ItemStarted(thread, turn, _) => Some((thread, turn))
    case ItemCompleted(thread, turn, _) => Some((thread, turn))
    case TurnCompleted(thread, turn) => Some((thread, turn.id))
    case Ignored(thread, turn) => Some((thread, turn))
    case _ => None
  }

  /**
   What a session that goes on can have heard: replies and notifications, none of them refused by its
   kind, all of them about its own thread and turn, with items and usage that fit.
  */
  predicate InScope(ms: seq<Message>, thread: Option<Id>, turn: Option<Id>)
  {
    forall m :: m in ms ==> !m.ServerRequest? && !m.Garbage? && (m.Notification? ==> NoteInScope(m.note, thread, turn))
  }

  predicate NoteInScope(note: Note, thread: Option<Id>, turn: Option<Id>)
  {
    && note != Refused && note != RemoteControl(false)
    && (TurnOf(note).Some? ==> thread == Some(TurnOf(note).value.0) && turn == Some(TurnOf(note).value.1))
    && (note.StatusChanged? || note.TurnStarted? ==> thread == Some(note.thread))
    && (note.ItemStarted? || note.ItemCompleted? ==> note.item != Unfit)
    && (note.TokenUsage? ==>
          && note.usage.cached >= 0 && note.usage.input >= 0 && note.usage.output >= 0 && note.usage.reasoning >= 0
          && note.usage.input + note.usage.output <= note.usage.total)
  }

  /** The threads and the turns that were announced, in order. */
  function AnnouncedThreads(ms: seq<Message>): seq<Id>
  {
    if ms == [] then [] else
      AnnouncedThreads(ms[..|ms| - 1]) +
      match ms[|ms| - 1]
      case Notification(ThreadStarted(thread)) => [thread]
      case _ => []
  }

  function AnnouncedTurns(ms: seq<Message>): seq<Id>
  {
    if ms == [] then [] else
      AnnouncedTurns(ms[..|ms| - 1]) +
      match ms[|ms| - 1]
      case Notification(TurnStarted(_, announced)) => [announced]
      case _ => []
  }

  predicate Only(announced: seq<Id>, id: Id) { announced == [] || announced == [id] }

  function AsList(id: Option<Id>): seq<Id> { if id.None? then [] else [id.value] }

  /** The state is what these messages make of it, and within its bounds. */
  predicate Tracks(s: State, ms: seq<Message>)
  {
    && InScope(ms, s.thread, s.turn)
    && AnnouncedThreads(ms) == AsList(s.announcedThread) && AnnouncedTurns(ms) == AsList(s.announcedTurn)
    && s.messages == Agents(ms) && |s.messages| <= MAX_COMPLETED_MESSAGES
    && s.retained == TextBytes(s.messages) <= MAX_RETAINED_TEXT_BYTES
    && s.usage == LastUsage(ms)
    && (match s.completion
        case None => Completions(ms) == []
        case Some(turn) =>
          && s.thread.Some? && s.turn == Some(turn.id)
          && Completions(ms) == [TurnCompleted(s.thread.value, turn)])
  }

  /** Whatever is tolerated keeps the state what the messages make of it, and within its bounds. */
  lemma AdmittedKeepsTrack(s: State, ms: seq<Message>, note: Note)
    requires Tracks(s, ms) && Admits(s, note)
    ensures Tracks(After(s, note), ms + [Notification(note)])
  {
    assert (ms + [Notification(note)])[..|ms|] == ms;
    AdmittedIsInScope(s, note);
    if note.ItemCompleted? && note.item.Agent? {
      assert (s.messages + [note.item.message])[..|s.messages|] == s.messages;
    }
  }

  lemma AdmittedIsInScope(s: State, note: Note)
    requires Admits(s, note)
    ensures NoteInScope(note, s.thread, s.turn) && After(s, note).thread == s.thread && After(s, note).turn == s.turn
  {
  }

  /** A completion is recorded once, for the turn at hand, and skills change only while that is tolerated. */
  lemma AdmittedCompletesOnce(s: State, note: Note)
    requires Admits(s, note)
    ensures var t := After(s, note);
            && (note.SkillsChanged? ==> s.disabling)
            && (t.completion != s.completion ==>
                  && s.completion.None? && s.turn.Some? && s.thread.Some? && t.completion.Some?
                  && note == TurnCompleted(s.thread.value, t.completion.value))
  {
  }

  lemma FlagIsFree(s: State, ms: seq<Message>, flag: bool)
    ensures Tracks(s, ms) <==> Tracks(s.(disabling := flag), ms)
  {
  }

  /** Replies say nothing about the turn. */
  lemma ReplyKeepsTrack(s: State, ms: seq<Message>, m: Message)
    requires Tracks(s, ms) && m.Response?
    ensures Tracks(s, ms + [m])
  {
    assert (ms + [m])[..|ms|] == ms;
  }

  /** From message `from` to `to` come only notifications, and last the response to request `id`. */
  predicate AnsweredBy(ms: seq<Message>, from: nat, to: int, id: nat, result: Result)
  {
    && from < to <= |ms| && ms[to - 1] == Response(id, Some(result))
    && forall j :: from <= j < to - 1 ==> ms[j].Notification?
  }

  /** No skill changed from message `from` on. */
  predicate SkillsKept(ms: seq<Message>, from: nat)
  {
    forall j :: from <= j < |ms| ==> ms[j] != Notification(SkillsChanged)
  }

  // ---------- What a session accepts ----------

  /** Where a session stands: the messages still to come, how many have come, the handler and the next id. */
  datatype Point = Point(rest: seq<Message>, count: nat, state: State, nextId: nat)

  /** The next message and the point after it, unless it ends the session. */
  function Next(p: Point): (r: Option<(Message, Point)>)
    ensures r.Some? ==> |r.value.1.rest| < |p.rest| && (r.value.0.Notification? || r.value.0.Response?)
  {
    if p.count >= MAX_MESSAGES || p.rest == [] || !Hearable(p.state, p.rest[0]) then None
    else Some((p.rest[0], Point(p.rest[1..], p.count + 1, Handled(p.state, p.rest[0]), p.nextId)))
  }

  function Handled(s: State, m: Message): State { if m.Notification? then After(s, m.note) else s }

  /** The response to request `id`. */
  function Reply(p: Point, id: nat): Option<(Result, Point)>
    decreases |p.rest|
  {
    var (m, q) :- Next(p);
    if !m.Response? then Reply(q, id)
    else if m.id == id && m.result.Some? then Some((m.result.value, q))
    else None
  }

  /** A request under the next id, and its response. */
  function Answer(p: Point): Option<(Result, Point)> { Reply(p.(nextId := p.nextId + 1), p.nextId) }

  function FlatAnswer(p: Point): Option<Point>
  {
    var (result, q) :- Answer(p);
    if result == Plain(true) then Some(q) else None
  }

  function PageAnswers(p: Point, seen: set<Id>, page: nat): Option<Point>
    decreases MAX_PAGES - page
  {
    if page >= MAX_PAGES then None else
    var (result, q) :- Answer(p);
    if !result.Page? || !result.fits then None
    else if result.next.None? then Some(q)
    else if result.next.value in seen then None
    else PageAnswers(q, seen + {result.next.value}, page + 1)
  }

  function SkillsAnswer(p: Point): (r: Option<(Result, Point)>)
    ensures r.Some? ==> r.value.0.Skills?
  {
    var (result, q) :- Answer(p);
    if result.Skills? && result.fits then Some((result, q)) else None
  }

  function WriteAnswers(p: Point, writes: nat): Option<Point>
    decreases writes
  {
    if writes == 0 then Some(p) else
    var q :- FlatAnswer(p);
    WriteAnswers(q, writes - 1)
  }

  function DisablingAnswers(p: Point): Option<Point>
  {
    var (skills, listed) :- SkillsAnswer(p);
    var written :- WriteAnswers(listed, |skills.enabled|);
    var (last, q) :- SkillsAnswer(written);
    if last.allDisabled then Some(q) else None
  }

  function CatalogueAnswers(p: Point): Option<Point>
  {
    var initialised :- FlatAnswer(p);
    var models :- PageAnswers(initialised, {}, 0);
    PageAnswers(models, {}, 0)
  }

  function InquiryAnswers(p: Point): Option<Point>
  {
    var catalogue :- CatalogueAnswers(p);
    var account :- FlatAnswer(catalogue);
    FlatAnswer(account)
  }

  function Disabling(p: Point, flag: bool): Point { p.(state := p.state.(disabling := flag)) }

  function PreparationAnswers(p: Point): Option<Point>
  {
    var limits :- InquiryAnswers(p);
    var q :- DisablingAnswers(Disabling(limits, true));
    Some(Disabling(q, false))
  }

  /** An id that was announced already must be the one in the response. */
  predicate Announced(announced: Option<Id>, id: Id) { announced.None? || announced == Some(id) }

  function ThreadAnswer(p: Point): Option<Point>
  {
    var (result, q) :- Answer(p);
    if result.Thread? && result.fits && Announced(q.state.announcedThread, result.id)
    then Some(q.(state := q.state.(thread := Some(result.id)))) else None
  }

  function TurnAnswer(p: Point): Option<Point>
  {
    var (result, q) :- Answer(p);
    if result.Started? && result.inProgress && Announced(q.state.announcedTurn, result.id)
    then Some(q.(state := q.state.(turn := Some(result.id)))) else None
  }

  /** Notifications up to the completion of the turn. */
  function Completion(p: Point): Option<Point>
    decreases |p.rest|
  {
    if p.state.completion.Some? then Some(p) else
    var (m, q) :- Next(p);
    if m.Notification? then Completion(q) else None
  }

  /** The turn is not awaited if its dispatch could not be accounted for. */
  function OpeningAnswers(p: Point, accounting: bool): Option<Point>
  {
    var thread :- ThreadAnswer(p);
    if accounting then TurnAnswer(thread) else None
  }

  function TurnAnswers(p: Point, accounting: bool): Option<(Text, Point)>
  {
    var turn :- OpeningAnswers(p, accounting);
    var q :- Completion(turn);
    if q.state.completion.Some? && Finalisable(q.state.completion.value, q.state.messages)
    then Some((q.state.messages[|q.state.messages| - 1].text, q)) else None
  }

  /** The outcome of a run, as one function of the messages that come. */
  function Accepts(stream: seq<Message>, accounting: bool): Option<TurnOutcome>
  {
    var prepared :- PreparationAnswers(Point(stream, 0, IDLE, 1));
    var (output, answered) :- TurnAnswers(prepared, accounting);
    var q :- FlatAnswer(answered);
    var usage :- q.state.usage;
    Some(TurnOutcome(output, usage))
  }

  const IDLE := State(None, None, None, None, None, [], 0, None, false)

  // ---------- What that means for a list of messages ----------

  function HandledAll(s: State, ms: seq<Message>): State
    decreases |ms|
  {
    if ms == [] then s else HandledAll(Handled(s, ms[0]), ms[1..])
  }

  /** The point after the first k messages. */
  function Later(p: Point, k: nat): Point
    requires k <= |p.rest|
  {
    Point(p.rest[k..], p.count + k, HandledAll(p.state, p.rest[..k]), p.nextId)
  }

  /** The first k messages are within the limit, and notifications that are tolerated where they come. */
  predicate Tolerated(p: Point, k: nat)
  {
    && k <= |p.rest| && p.count + k <= MAX_MESSAGES
    && forall j :: 0 <= j < k ==> p.rest[j].Notification? && Admits(HandledAll(p.state, p.rest[..j]), p.rest[j].note)
  }

  predicate RespondsAt(p: Point, k: nat, id: nat)
  {
    && Tolerated(p, k) && k < |p.rest| && p.count + k < MAX_MESSAGES
    && p.rest[k].Response? && p.rest[k].id == id && p.rest[k].result.Some?
  }

  predicate CompletesAt(p: Point, k: nat)
  {
    k < |p.rest| && Tolerated(p, k + 1) && p.rest[k].note.TurnCompleted?
  }

  lemma HandledFirst(s: State, ms: seq<Message>, k: nat)
    requires 0 < k <= |ms|
    ensures HandledAll(s, ms[..k]) == HandledAll(Handled(s, ms[0]), ms[1..][..k - 1])
  {
    assert ms[..k][1..] == ms[1..][..k - 1];
  }

  lemma ToleratedFirst(p: Point, k: nat)
    requires Next(p).Some? && Next(p).value.0.Notification? && 0 < k <= |p.rest|
    ensures Tolerated(p, k) <==> Tolerated(Next(p).value.1, k - 1)
    ensures Later(p, k) == Later(Next(p).value.1, k - 1)
  {
    hide Admits, HandledAll;
    var q := Next(p).value.1;
    forall j | 0 < j <= k
      ensures HandledAll(p.state, p.rest[..j]) == HandledAll(q.state, q.rest[..j - 1])
    {
      HandledFirst(p.state, p.rest, j);
    }
    assert HandledAll(p.state, p.rest[..0]) == p.state by { assert p.rest[..0] == []; NothingHandled(p.state); }
    if Tolerated(q, k - 1) {
      forall j | 0 <= j < k
        ensures p.rest[j].Notification? && Admits(HandledAll(p.state, p.rest[..j]), p.rest[j].note)
      {
        if j > 0 { assert q.rest[j - 1] == p.rest[j]; }
      }
    }
    if Tolerated(p, k) {
      forall j | 0 <= j < k - 1
        ensures q.rest[j].Notification? && Admits(HandledAll(q.state, q.rest[..j]), q.rest[j].note)
      {
        assert q.rest[j] == p.rest[j + 1];
      }
    }
  }

  lemma NothingHandled(s: State)
    ensures HandledAll(s, []) == s
  {
  }

  /**
   A call is answered exactly when its response comes after tolerated notifications only, under its own
   id and within the limit; the session then stands right after the response.
  */
  lemma {:induction false} ReplyMeans(p: Point, id: nat)
    ensures Reply(p, id).Some? <==> exists k: nat :: RespondsAt(p, k, id)
    ensures forall k: nat :: RespondsAt(p, k, id) ==> Reply(p, id) == Some((p.rest[k].result.value, Later(p, k + 1)))
    decreases |p.rest|
  {
    hide Later, HandledAll;
    if Next(p).Some? && Next(p).value.0.Notification? {
      var q := Next(p).value.1;
      ReplyMeans(q, id);
      forall k: nat | k < |p.rest|
        ensures RespondsAt(p, k, id) <==> k > 0 && RespondsAt(q, k - 1, id)
        ensures Later(p, k + 1) == Later(q, k)
      {
        ToleratedFirst(p, k + 1);
        if k > 0 { ToleratedFirst(p, k); }
      }
      if k: nat :| RespondsAt(q, k, id) { assert RespondsAt(p, k + 1, id); }
    } else {
      RespondsNow(p, id);
    }
  }

  lemma FirstTolerated(p: Point, k: nat)
    requires Tolerated(p, k) && k > 0
    ensures Next(p).Some? && Next(p).value.0.Notification?
  {
    assert p.rest[..0] == [];
  }

  lemma RespondsNow(p: Point, id: nat)
    requires Next(p).Some? ==> Next(p).value.0.Response?
    ensures Reply(p, id).Some? <==> RespondsAt(p, 0, id)
    ensures forall k: nat :: RespondsAt(p, k, id) ==>
              k == 0 && Reply(p, id) == Some((p.rest[0].result.value, Later(p, 1)))
  {
    assert p.rest[..0] == [] && HandledAll(p.state, p.rest[..0]) == p.state;
    if p.rest != [] {
      assert p.rest[..1] == [p.rest[0]] && HandledAll(p.state, p.rest[..1]) == Handled(p.state, p.rest[0]);
    }
    forall k: nat | RespondsAt(p, k, id)
      ensures k == 0
    {
      if k > 0 { FirstTolerated(p, k); }
    }
  }

  /**
   The wait for the turn ends exactly with its completion, after tolerated notifications only; the
   session then stands right after it.
  */
  lemma {:induction false} CompletionMeans(p: Point)
    requires p.state.completion.None?
    ensures Completion(p).Some? <==> exists k: nat :: CompletesAt(p, k)
    ensures forall k: nat :: CompletesAt(p, k) ==> Completion(p) == Some(Later(p, k + 1))
    decreases |p.rest|
  {
    hide Later, HandledAll, Next, Tolerated;
    if Next(p).Some? && Next(p).value.0.Notification? {
      var q := Next(p).value.1;
      NextNotification(p);
      forall k: nat | k < |p.rest|
        ensures Tolerated(p, k + 1) <==> Tolerated(q, k)
        ensures Later(p, k + 1) == Later(q, k)
      {
        ToleratedFirst(p, k + 1);
      }
      if q.state.completion.None? {
        CompletionMeans(q);
        forall k: nat | CompletesAt(p, k)
          ensures k > 0 && CompletesAt(q, k - 1)
        {
        }
        if k: nat :| CompletesAt(q, k) { assert CompletesAt(p, k + 1); }
      } else {
        forall k: nat | CompletesAt(p, k)
          ensures k == 0
        {
          if k > 0 { CompletesOnce(q, k - 1); }
        }
        assert CompletesAt(p, 0);
      }
    } else {
      forall k: nat ensures !CompletesAt(p, k) {
        if CompletesAt(p, k) { FirstTolerated(p, k + 1); }
      }
    }
  }

  lemma NextNotification(p: Point)
    requires Next(p).Some? && Next(p).value.0.Notification? && p.state.completion.None?
    ensures var q := Next(p).value.1;
            && p.rest != [] && q.rest == p.rest[1..] && p.rest[0].Notification?
            && (q.state.completion.Some? <==> p.rest[0].note.TurnCompleted?)
            && Tolerated(q, 0) && Later(q, 0) == q
  {
    assert Next(p).value.1.rest[..0] == [];
  }

  lemma CompletesOnce(p: Point, k: nat)
    requires p.state.completion.Some?
    ensures !CompletesAt(p, k)
  {
    if CompletesAt(p, k) { CompletionStays(p.state, p.rest[..k]); }
  }

  lemma {:induction false} CompletionStays(s: State, ms: seq<Message>)
    requires s.completion.Some?
    ensures HandledAll(s, ms).completion.Some?
    decreases |ms|
  {
    if ms != [] { CompletionStays(Handled(s, ms[0]), ms[1..]); }
  }

  // ---------- The session ----------

  class Protocol {
    var nextId: nat
    var messages: nat
    var incoming: seq<Message>
    var threadId: Option<Id>
    var announcedThreadId: Option<Id>
    var turnId: Option<Id>
    var announcedTurnId: Option<Id>
    var turnCompleted: Option<Turn>
    var completedMessages: seq<AgentMessage>
    var retainedTextBytes: nat
    var lastUsage: Option<Usage>
    var disablingSkills: bool
    const accounting: bool
    ghost const stream: seq<Message>
    ghost var heard: seq<Message>
    ghost var sent: seq<Sent>
    ghost var dispatches: seq<Dispatch>

    /** `accounting` says whether the `on_dispatched` callback returns normally. */
    constructor (stream: seq<Message>, accounting: bool)
      ensures Valid() && this.stream == stream && heard == [] && sent == [] && dispatches == []
      ensures Now() == IDLE && Here() == Point(stream, 0, IDLE, 1) && this.accounting == accounting
    {
      nextId, messages, incoming, this.stream, this.accounting := 1, 0, stream, stream, accounting;
      threadId, announcedThreadId, turnId, announcedTurnId, turnCompleted := None, None, None, None, None;
      completedMessages, retainedTextBytes, lastUsage, disablingSkills := [], 0, None, false;
      heard, sent, dispatches := [], [], [];
    }

    function Now(): State
      reads this
    {
      State(threadId, announcedThreadId, turnId, announcedTurnId, turnCompleted, completedMessages, retainedTextBytes,
            lastUsage, disablingSkills)
    }

    /** Where the session stands. */
    function Here(): Point
      reads this
    {
      Point(incoming, messages, Now(), nextId)
    }

    ghost predicate Valid()
      reads this
    {
      Counted() && Tracks(Now(), heard)
    }

    /** Every message is counted, and the stream is what was heard and what is still to come. */
    ghost predicate Counted()
      reads this
    {
      messages == |heard| <= MAX_MESSAGES && heard + incoming == stream
    }

    predicate MatchesTurn(thread: Id, turn: Id)
      reads this
    {
      threadId == Some(thread) && turnId == Some(turn)
    }

    /** `_receive`. */
    method Receive() returns (m: Option<Message>)
      requires Valid()
      modifies `messages, `incoming, `heard
      ensures m.Some? ==> heard == old(heard) + [m.value] && |incoming| < |old(incoming)| && Counted()
      ensures m.Some? ==> messages == old(messages) + 1 && incoming == old(incoming)[1..]
      ensures m == if |old(heard)| == MAX_MESSAGES || old(incoming) == [] then None else Some(old(incoming)[0])
    {
      messages := messages + 1;
      if messages > MAX_MESSAGES || incoming == [] { return None; }
      m := Some(incoming[0]);
      assert (heard + [incoming[0]]) + incoming[1..] == heard + incoming;
      incoming, heard := incoming[1..], heard + [incoming[0]];
    }

    /** `_handle_notification`. */
    method HandleNotification(note: Note) returns (ok: bool)
      modifies `announcedThreadId, `announcedTurnId, `turnCompleted, `completedMessages, `retainedTextBytes, `lastUsage
      ensures ok <==> Admits(old(Now()), note)
      ensures ok ==> Now() == After(old(Now()), note)
    {
      ok := true;
      match note
      case RateLimits =>
      case SkillsChanged => ok := disablingSkills;
      case RemoteControl(disabled) => ok := disabled;
      case ThreadStarted(thread) =>
        if announcedThreadId.Some? { return false; }
        announcedThreadId := Some(thread);
      case TurnStarted(thread, announced) =>
        if threadId != Some(thread) || announcedTurnId.Some? { return false; }
        announcedTurnId := Some(announced);
      case TokenUsage(thread, turn, usage) =>
        if !MatchesTurn(thread, turn) || !Consistent(usage) { return false; }
        lastUsage := Some(usage);
      case ItemStarted(thread, turn, item) => ok := MatchesTurn(thread, turn) && !item.Unfit?;
      case ItemCompleted(thread, turn, item) =>
        if !MatchesTurn(thread, turn) || item.Unfit? { return false; }
        if item.Agent? {
          if |completedMessages| >= MAX_COMPLETED_MESSAGES || !Utf8.Scalars(item.message.text) { return false; }
          var bytes := |Utf8.Encode(item.message.text)|;
          if retainedTextBytes + bytes > MAX_RETAINED_TEXT_BYTES { return false; }
          retainedTextBytes := retainedTextBytes + bytes;
          completedMessages := completedMessages + [item.message];
        }
      case TurnCompleted(thread, turn) =>
        if threadId != Some(thread) { return false; }
        if turnId != Some(turn.id) { return false; }
        if turnCompleted.Some? || turn.size > MAX_RETAINED_TEXT_BYTES { return false; }
        turnCompleted := Some(turn);
      case Ignored(thread, turn) => ok := MatchesTurn(thread, turn);
      case StatusChanged(thread) => ok := threadId == Some(thread);
      case Refused => ok := false;
    }

    /** Messages were heard, and a turn that is recorded as completed stays as it is. */
    twostate predicate Consumed()
      reads this
    {
      && old(heard) <= heard
      && (turnId.None? || old(turnCompleted).Some? ==> turnCompleted == old(turnCompleted))
    }

    /** And unless skills are being disabled, their configuration did not change meanwhile. */
    twostate predicate Advanced()
      reads this
    {
      && Consumed()
      && (!disablingSkills ==> SkillsKept(heard, |old(heard)|))
    }

    /** The next message, and its handling if it is a notification; the server may ask for nothing. */
    method Hear() returns (m: Option<Message>)
      requires Valid()
      modifies `messages, `incoming, `heard
      modifies `announcedThreadId, `announcedTurnId, `turnCompleted, `completedMessages, `retainedTextBytes, `lastUsage
      ensures m.Some? ==> Valid() && Advanced() && |incoming| < |old(incoming)| && heard == old(heard) + [m.value]
      ensures Next(old(Here())) == if m.Some? then Some((m.value, Here())) else None
      ensures m.Some? && turnCompleted.Some? && old(turnCompleted).None? ==>
                threadId.Some? && m.value == Notification(TurnCompleted(threadId.value, turnCompleted.value))
    {
      hide Tracks, Admits, After;
      m := Receive();
      if m.None? { return; }
      match m.value
      case Notification(note) =>
        var ok := HandleNotification(note);
        if !ok { return None; }
        AdmittedKeepsTrack(old(Now()), old(heard), note);
        AdmittedCompletesOnce(old(Now()), note);
      case Response(_, _) => ReplyKeepsTrack(old(Now()), old(heard), m.value);
      case ServerRequest => return None;
      case Garbage => return None;
    }

    /** `receive_notification`. */
    method ReceiveNotification() returns (ok: bool)
      requires Valid()
      modifies `messages, `incoming, `heard
      modifies `announcedThreadId, `announcedTurnId, `turnCompleted, `completedMessages, `retainedTextBytes, `lastUsage
      ensures ok ==> Valid() && Advanced() && |incoming| < |old(incoming)|
      ensures ok <==> Next(old(Here())).Some? && Next(old(Here())).value.0.Notification?
      ensures ok ==> Next(old(Here())).value.1 == Here()
      ensures ok && turnCompleted.Some? && old(turnCompleted).None? ==>
                && threadId.Some?
                && heard == old(heard) + [Notification(TurnCompleted(threadId.value, turnCompleted.value))]
    {
      var m := Hear();
      ok := m.Some? && m.value.Notification?;
    }

    /** `call`: one request, and the messages up to its response. */
    method Call(request: Request) returns (result: Option<Result>)
      requires Valid()
      modifies `messages, `incoming, `heard, `nextId, `sent, `dispatches
      modifies `announcedThreadId, `announcedTurnId, `turnCompleted, `completedMessages, `retainedTextBytes, `lastUsage
      ensures sent == old(sent) + [Sent(request, |old(heard)|, old(nextId))]
      ensures dispatches == old(dispatches) + if request.TurnStart? then [Dispatch(|sent|, |old(heard)|)] else []
      ensures nextId == old(nextId) + 1
      ensures result.Some? ==>
                Valid() && Advanced() && AnsweredBy(heard, |old(heard)|, |heard|, old(nextId), result.value)
      ensures result.Some? <==> Answer(old(Here())).Some? && (request.TurnStart? ==> accounting)
      ensures result.Some? ==> Answer(old(Here())).value == (result.value, Here())
    {
      hide Tracks, Next, Reply;
      var id := nextId;
      nextId, sent := nextId + 1, sent + [Sent(request, |heard|, id)];
      result := None;
      if request.TurnStart? {
        dispatches := dispatches + [Dispatch(|sent|, |heard|)];
        if !accounting { return; }
      }
      result := Await(id);
    }

    /** The loop of `call`: until the response, which must answer this request. */
    method Await(id: nat) returns (result: Option<Result>)
      requires Valid()
      modifies `messages, `incoming, `heard
      modifies `announcedThreadId, `announcedTurnId, `turnCompleted, `completedMessages, `retainedTextBytes, `lastUsage
      ensures result.Some? ==> Valid() && Advanced() && AnsweredBy(heard, |old(heard)|, |heard|, id, result.value)
      ensures Reply(old(Here()), id) == if result.Some? then Some((result.value, Here())) else None
    {
      hide Tracks, Next;
      while true
        invariant Valid() && Advanced()
        invariant forall j :: |old(heard)| <= j < |heard| ==> heard[j].Notification?
        invariant Reply(Here(), id) == Reply(old(Here()), id)
        decreases |incoming|
      {
        var m := Hear();
        if m.None? { return None; }
        if m.value.Response? { return if m.value.id == id then m.value.result else None; }
      }
    }

    /** `_finalize_turn`. */
    method FinalizeTurn() returns (output: Option<Text>)
      requires turnCompleted.Some?
      ensures output.Some? <==> Finalisable(turnCompleted.value, completedMessages)
      ensures output.Some? ==> output.value == completedMessages[|completedMessages| - 1].text
    {
      var turn := turnCompleted.value;
      if !turn.completed || turn.error || |turn.items| > MAX_MESSAGES { return None; }
      var streamed := completedMessages;
      match turn.view {
        case NotLoaded =>
          if turn.items != [] { return None; }
        case Full =>
          var listed := ListedMessages(turn.items);
          if listed.None? { return None; }
          streamed := listed.value;
        case UnknownView =>
          return None;
      }
      if streamed == [] || completedMessages == [] { return None; }
      var answered := JudgeMessages(streamed);
      if !answered { return None; }
      if turn.view.Full? && streamed != completedMessages { return None; }
      if !turn.durationFits { return None; }
      output := Some(streamed[|streamed| - 1].text);
    }

    // ---------- The run ----------

    /** A preparatory request starts neither a thread nor a turn. */
    static predicate Preparatory(r: Request) { !r.ThreadStart? && !r.TurnStart? }

    /** Only preparatory requests were sent since, and nothing was dispatched. */
    twostate predicate Prepared()
      reads this
    {
      && old(sent) <= sent && (forall i :: |old(sent)| <= i < |sent| ==> Preparatory(sent[i].request))
      && dispatches == old(dispatches) && Advanced()
    }

    method Initialise() returns (ok: bool)
      requires Valid()
      modifies `messages, `incoming, `heard, `nextId, `sent, `dispatches
      modifies `announcedThreadId, `announcedTurnId, `turnCompleted, `completedMessages, `retainedTextBytes, `lastUsage
      ensures ok ==> Valid() && Prepared()
      ensures ok ==> |sent| == |old(sent)| + 2 && sent[|old(sent)|].request == Initialize
                     && sent[|old(sent)| + 1].request == Initialized && sent[|old(sent)| + 1].id == 0
      ensures FlatAnswer(old(Here())) == if ok then Some(Here()) else None
    {
      hide Tracks, Reply;
      var result := Call(Initialize);
      if result.None? || !result.value.Plain? || !result.value.fits { return false; }
      sent := sent + [Sent(Initialized, |heard|, 0)];
      ok := true;
    }

    /** One request and a flat reply. */
    method Ask(request: Request) returns (ok: bool)
      requires Valid() && Preparatory(request)
      modifies `messages, `incoming, `heard, `nextId, `sent, `dispatches
      modifies `announcedThreadId, `announcedTurnId, `turnCompleted, `completedMessages, `retainedTextBytes, `lastUsage
      ensures ok ==> Valid() && Prepared() && sent == old(sent) + [Sent(request, |old(heard)|, old(nextId))]
      ensures ok ==> AnsweredBy(heard, |old(heard)|, |heard|, old(nextId), Plain(true))
      ensures FlatAnswer(old(Here())) == if ok then Some(Here()) else None
    {
      hide Tracks, Reply;
      var result := Call(request);
      ok := result.Some? && result.value.Plain? && result.value.fits;
    }

    /** One page of a catalogue, from the cursor of the page before. */
    method AskPage(models: bool, cursor: Option<Id>, ghost from: nat) returns (page: Option<Result>)
      requires Valid() && from <= |sent| && Chained(sent, from, heard) && Answers(sent, from, heard, cursor)
      requires from < |sent| ==> cursor.Some?
      modifies `messages, `incoming, `heard, `nextId, `sent, `dispatches
      modifies `announcedThreadId, `announcedTurnId, `turnCompleted, `completedMessages, `retainedTextBytes, `lastUsage
      ensures |sent| == |old(sent)| + 1 && old(sent) <= sent
      ensures sent[|sent| - 1].request == if models then ModelList(cursor) else PermissionList(cursor)
      ensures page.Some? ==> page.value.Page? && page.value.fits && Valid() && Prepared()
      ensures page.Some? ==> Chained(sent, from, heard) && Answers(sent, from, heard, page.value.next)
      ensures page.Some? <==> Answer(old(Here())).Some? && Answer(old(Here())).value.0.Page?
                              && Answer(old(Here())).value.0.fits
      ensures page.Some? ==> Answer(old(Here())).value == (page.value, Here())
    {
      hide Tracks, Answer;
      page := Call(if models then ModelList(cursor) else PermissionList(cursor));
      if page.Some? && page.value.Page? && page.value.fits {
        StillChained(old(sent), sent, from, old(heard), heard);
      } else {
        page := None;
      }
    }

    /** The last page asked for was answered, and has this cursor; before the first, there is none. */
    static predicate Answers(sent: seq<Sent>, from: nat, heard: seq<Message>, cursor: Option<Id>)
    {
      if |sent| <= from then cursor == None
      else AnsweredBy(heard, sent[|sent| - 1].heardBefore, |heard|, sent[|sent| - 1].id, Page(true, cursor))
    }

    static lemma NoPageYet(sent: seq<Sent>, heard: seq<Message>)
      ensures Chained(sent, |sent|, heard) && Answers(sent, |sent|, heard, None)
    {
    }

    /** `_paged`: pages until there is no cursor; a cursor that comes back is refused. */
    method Paged(models: bool) returns (ok: bool)
      requires Valid()
      modifies `messages, `incoming, `heard, `nextId, `sent, `dispatches
      modifies `announcedThreadId, `announcedTurnId, `turnCompleted, `completedMessages, `retainedTextBytes, `lastUsage
      ensures ok ==> Valid() && Prepared() && 0 < |sent| - |old(sent)| <= MAX_PAGES
      ensures ok ==> Pages(sent, |old(sent)|, models) && Chained(sent, |old(sent)|, heard)
      ensures ok ==> Answers(sent, |old(sent)|, heard, None)
      ensures PageAnswers(old(Here()), {}, 0) == if ok then Some(Here()) else None
    {
      hide Tracks, Answer, AnsweredBy, Chained, Answers;
      NoPageYet(sent, heard);
      var cursor: Option<Id>, seen: set<Id> := None, {};
      for page := 0 to MAX_PAGES
        invariant Valid() && Prepared() && |sent| == |old(sent)| + page
        invariant Pages(sent, |old(sent)|, models)
        invariant forall i :: |old(sent)| <= i < |sent| ==>
                  sent[i].request.cursor == None || sent[i].request.cursor.value in seen
        invariant if page == 0 then cursor == None else cursor.Some? && cursor.value in seen
        invariant forall i :: |old(sent)| <= i < |sent| ==> sent[i].request.cursor != cursor
        invariant PageAnswers(Here(), seen, page) == PageAnswers(old(Here()), {}, 0)
        invariant Chained(sent, |old(sent)|, heard) && Answers(sent, |old(sent)|, heard, cursor)
      {
        var result := AskPage(models, cursor, |old(sent)|);
        if result.None? { return false; }
        cursor := result.value.next;
        if cursor.None? { return true; }
        if cursor.value in seen { return false; }
        seen := seen + {cursor.value};
      }
      ok := false;
    }

    /** The requests from number `from` on list one catalogue and never use a cursor twice. */
    static predicate Pages(sent: seq<Sent>, from: nat, models: bool)
    {
      && (forall i :: from <= i < |sent| ==>
            if models then sent[i].request.ModelList? else sent[i].request.PermissionList?)
      && forall i, j :: from <= i < j < |sent| ==> sent[i].request.cursor != sent[j].request.cursor
    }

    /** The first request of a catalogue has no cursor, and each later one the cursor of the answer before it. */
    static predicate Chained(sent: seq<Sent>, from: nat, heard: seq<Message>)
    {
      && (from < |sent| ==> Cursor(sent[from].request) == None)
      && forall i :: from < i < |sent| ==> Cursor(sent[i].request).Some? && Continues(sent[i - 1], sent[i], heard)
    }

    /** The answer to the one request is the page that the other one continues. */
    static predicate Continues(a: Sent, b: Sent, heard: seq<Message>)
    {
      AnsweredBy(heard, a.heardBefore, b.heardBefore, a.id, Page(true, Cursor(b.request)))
    }

    static function Cursor(r: Request): Option<Id> { if r.ModelList? || r.PermissionList? then r.cursor else None }

    static lemma StillChained(short: seq<Sent>, long: seq<Sent>, from: nat, heard: seq<Message>, more: seq<Message>)
      requires Chained(short, from, heard) && heard <= more && from <= |short| && |long| == |short| + 1 && short <= long
      requires if from == |short| then Cursor(long[from].request) == None
               else Cursor(long[|short|].request).Some? && Continues(short[|short| - 1], long[|short|], heard)
      ensures Chained(long, from, more)
    {
      assert from < |short| ==> long[from] == short[from];
      forall i | from < i < |long|
        ensures Cursor(long[i].request).Some? && Continues(long[i - 1], long[i], more)
      {
        assert long[i - 1] == short[i - 1];
        if i < |short| { assert long[i] == short[i] && Continues(short[i - 1], short[i], heard); }
      }
    }

    method ListSkills() returns (skills: Option<Result>)
      requires Valid()
      modifies `messages, `incoming, `heard, `nextId, `sent, `dispatches
      modifies `announcedThreadId, `announcedTurnId, `turnCompleted, `completedMessages, `retainedTextBytes, `lastUsage
      ensures sent == old(sent) + [Sent(SkillsList, |old(heard)|, old(nextId))]
      ensures skills.Some? ==> skills.value.Skills? && Valid() && Prepared()
      ensures skills.Some? ==> AnsweredBy(heard, |old(heard)|, |heard|, old(nextId), skills.value)
      ensures SkillsAnswer(old(Here())) == if skills.Some? then Some((skills.value, Here())) else None
    {
      hide Tracks, Reply;
      skills := Call(SkillsList);
      if skills.Some? && (!skills.value.Skills? || !skills.value.fits) { skills := None; }
    }

    /** The writes of `_disable_skills`, one for each skill. */
    method SwitchOff(paths: seq<string>) returns (ok: bool)
      requires Valid()
      modifies `messages, `incoming, `heard, `nextId, `sent, `dispatches
      modifies `announcedThreadId, `announcedTurnId, `turnCompleted, `completedMessages, `retainedTextBytes, `lastUsage
      ensures ok ==> Valid() && Prepared() && |sent| == |old(sent)| + |paths|
      ensures ok ==> forall k :: 0 <= k < |paths| ==> sent[|old(sent)| + k].request == SkillsWrite(paths[k])
      ensures WriteAnswers(old(Here()), |paths|) == if ok then Some(Here()) else None
    {
      hide Tracks, FlatAnswer;
      for i := 0 to |paths|
        invariant Valid() && Prepared() && |sent| == |old(sent)| + i
        invariant forall k :: 0 <= k < i ==> sent[|old(sent)| + k].request == SkillsWrite(paths[k])
        invariant WriteAnswers(Here(), |paths| - i) == WriteAnswers(old(Here()), |paths|)
      {
        ok := Ask(SkillsWrite(paths[i]));
        if !ok { return; }
      }
      ok := true;
    }

    /** `_disable_skills`, with the flag up: list the skills, switch each off, and list them again. */
    method DisableSkills() returns (ok: bool, ghost first: Result, ghost answered: nat, ghost last: Result)
      requires Valid()
      modifies `messages, `incoming, `heard, `nextId, `sent, `dispatches
      modifies `announcedThreadId, `announcedTurnId, `turnCompleted, `completedMessages, `retainedTextBytes, `lastUsage
      ensures ok ==> Valid() && Prepared() && Disabled(sent, |old(sent)|, first, last)
      ensures ok ==> sent[|old(sent)|].heardBefore == |old(heard)|
      ensures ok ==> AnsweredBy(heard, |old(heard)|, answered, old(nextId), first)
      ensures ok ==> AnsweredBy(heard, sent[|sent| - 1].heardBefore, |heard|, sent[|sent| - 1].id, last)
      ensures DisablingAnswers(old(Here())) == if ok then Some(Here()) else None
    {
      hide Tracks, SkillsAnswer, WriteAnswers;
      first, answered, last := Plain(false), 0, Plain(false);
      var skills := ListSkills();
      if skills.None? { return false, first, answered, last; }
      first := skills.value;
      answered := |heard|;
      ok := SwitchOff(skills.value.enabled);
      if !ok { return; }
      skills := ListSkills();
      ok := skills.Some? && skills.value.allDisabled;
      if ok { last := skills.value; }
    }

    /** One listing, a write for each skill it showed enabled, and a listing that shows all disabled. */
    static predicate Disabled(sent: seq<Sent>, from: nat, first: Result, last: Result)
    {
      && first.Skills? && last.Skills? && last.allDisabled
      && |sent| == from + |first.enabled| + 2
      && sent[from].request == SkillsList && sent[|sent| - 1].request == SkillsList
      && forall k :: 0 <= k < |first.enabled| ==> sent[from + 1 + k].request == SkillsWrite(first.enabled[k])
    }

    /** The handshake and the two catalogues. */
    method Catalogue() returns (ok: bool, ghost models: nat)
      requires Valid() && sent == []
      modifies `messages, `incoming, `heard, `nextId, `sent, `dispatches
      modifies `announcedThreadId, `announcedTurnId, `turnCompleted, `completedMessages, `retainedTextBytes, `lastUsage
      ensures ok ==> Valid() && Prepared() && Catalogued(sent, models)
      ensures CatalogueAnswers(old(Here())) == if ok then Some(Here()) else None
    {
      hide Tracks, FlatAnswer, PageAnswers, AnsweredBy, Chained;
      models := 0;
      ok := Initialise();
      if !ok { return; }
      ok := Paged(true);
      if !ok { return; }
      models := |sent|;
      ok := Paged(false);
    }

    /** The handshake, then at least one and at most 64 pages of each catalogue. */
    static predicate Catalogued(sent: seq<Sent>, models: nat)
    {
      && 2 < models < |sent| && models - 2 <= MAX_PAGES && |sent| - models <= MAX_PAGES
      && sent[0].request == Initialize && sent[1].request == Initialized
      && Pages(sent[..models], 2, true) && Pages(sent, models, false)
    }

    /**
     All requests of a preparation, in order: the handshake, the models, the permission profiles, the
     account, the rate limits, and the skills; before these no skill changed.
    */
    static predicate Preparation(sent: seq<Sent>, heard: seq<Message>, models: nat, account: nat, first: Result,
                                 last: Result)
    {
      && account + 2 < |sent| && Catalogued(sent[..account], models)
      && sent[account].request == AccountRead && sent[account + 1].request == RateLimitsRead
      && Disabled(sent, account + 2, first, last)
      && sent[account + 2].heardBefore <= |heard| && SkillsKept(heard[..sent[account + 2].heardBefore], 0)
    }

    /** The handshake, the catalogues, the account and the rate limits. */
    method Inquire() returns (ok: bool, ghost models: nat, ghost account: nat)
      requires Valid() && sent == [] && heard == [] && !disablingSkills
      modifies `messages, `incoming, `heard, `nextId, `sent, `dispatches
      modifies `announcedThreadId, `announcedTurnId, `turnCompleted, `completedMessages, `retainedTextBytes, `lastUsage
      ensures ok ==> Valid() && Prepared() && SkillsKept(heard, 0)
      ensures ok ==> |sent| == account + 2 && Catalogued(sent[..account], models)
                     && sent[account].request == AccountRead && sent[account + 1].request == RateLimitsRead
      ensures InquiryAnswers(old(Here())) == if ok then Some(Here()) else None
    {
      hide Tracks, CatalogueAnswers, FlatAnswer, AnsweredBy, Catalogued;
      account := 0;
      ok, models := Catalogue();
      if !ok { return; }
      account := |sent|;
      ghost var catalogue := sent;
      ok := Ask(AccountRead);
      if !ok { return; }
      ok := Ask(RateLimitsRead);
      if ok { assert sent[..account] == catalogue; }
    }

    /** Everything `run` does before it starts a thread. */
    method Prepare() returns (ok: bool, ghost models: nat, ghost account: nat, ghost first: Result, ghost last: Result)
      requires Valid() && sent == [] && dispatches == [] && heard == [] && turnId.None? && !disablingSkills
      modifies `messages, `incoming, `heard, `nextId, `sent, `dispatches, `disablingSkills
      modifies `announcedThreadId, `announcedTurnId, `turnCompleted, `completedMessages, `retainedTextBytes, `lastUsage
      ensures ok ==> Valid() && Consumed() && dispatches == [] && !disablingSkills
      ensures ok ==> forall i :: 0 <= i < |sent| ==> Preparatory(sent[i].request)
      ensures ok ==> Preparation(sent, heard, models, account, first, last)
      ensures PreparationAnswers(old(Here())) == if ok then Some(Here()) else None
    {
      hide Tracks, InquiryAnswers, DisablingAnswers, SkillsKept, AnsweredBy, Catalogued;
      first, last := Plain(false), Plain(false);
      ok, models, account := Inquire();
      if !ok { return; }
      ghost var requests, before := sent, heard;
      FlagIsFree(Now(), heard, true);
      disablingSkills := true;
      ghost var answered;
      ok, first, answered, last := DisableSkills();
      FlagIsFree(Now(), heard, false);
      disablingSkills := false;
      if ok { assert sent[..account] == requests[..account] && heard[..|before|] == before; }
    }

    /** `_start_thread`. */
    method StartThread() returns (ok: bool)
      requires Valid() && threadId.None? && turnId.None? && turnCompleted.None?
      modifies `messages, `incoming, `heard, `nextId, `sent, `dispatches, `threadId
      modifies `announcedThreadId, `announcedTurnId, `turnCompleted, `completedMessages, `retainedTextBytes, `lastUsage
      ensures ok ==> Valid() && Advanced() && threadId.Some?
      ensures ok ==> sent == old(sent) + [Sent(ThreadStart, |old(heard)|, old(nextId))] && dispatches == old(dispatches)
      ensures ok ==> AnsweredBy(heard, |old(heard)|, |heard|, old(nextId), Thread(true, threadId.value))
      ensures ok ==> InScope(heard, None, None) && Only(AnnouncedThreads(heard), threadId.value)
      ensures ThreadAnswer(old(Here())) == if ok then Some(Here()) else None
    {
      hide Reply, LastUsage, Completions, Agents, TextBytes;
      var result := Call(ThreadStart);
      if result.None? || !result.value.Thread? || !result.value.fits { return false; }
      if announcedThreadId.Some? && announcedThreadId.value != result.value.id { return false; }
      threadId := Some(result.value.id);
      ok := true;
    }

    /** `_start_turn`. */
    method StartTurn(prompt: string) returns (ok: bool)
      requires Valid() && threadId.Some? && turnId.None? && turnCompleted.None?
      modifies `messages, `incoming, `heard, `nextId, `sent, `dispatches, `turnId
      modifies `announcedThreadId, `announcedTurnId, `turnCompleted, `completedMessages, `retainedTextBytes, `lastUsage
      ensures ok ==> Valid() && Advanced() && turnId.Some? && turnCompleted.None?
      ensures ok ==> sent == old(sent) + [Sent(TurnStart(threadId.value, prompt), |old(heard)|, old(nextId))]
      ensures ok ==> AnsweredBy(heard, |old(heard)|, |heard|, old(nextId), Started(turnId.value, true))
      ensures ok ==> InScope(heard, threadId, None) && Only(AnnouncedTurns(heard), turnId.value)
      ensures ok ==> dispatches == old(dispatches) + [Dispatch(|sent|, |old(heard)|)]
      ensures (if accounting then TurnAnswer(old(Here())) else None) == if ok then Some(Here()) else None
    {
      hide Reply, LastUsage, Completions, Agents, TextBytes;
      var result := Call(TurnStart(threadId.value, prompt));
      if result.None? || !result.value.Started? { return false; }
      if announcedTurnId.Some? && announcedTurnId.value != result.value.id { return false; }
      turnId := Some(result.value.id);
      ok := result.value.inProgress;
    }

    /** The two requests that open a turn. */
    method OpenTurn(prompt: string) returns (ok: bool)
      requires Valid() && threadId.None? && turnId.None? && turnCompleted.None?
      modifies `messages, `incoming, `heard, `nextId, `sent, `dispatches, `threadId, `turnId
      modifies `announcedThreadId, `announcedTurnId, `turnCompleted, `completedMessages, `retainedTextBytes, `lastUsage
      ensures ok ==> Valid() && Advanced() && threadId.Some? && turnId.Some? && turnCompleted.None?
      ensures ok ==> |sent| == |old(sent)| + 2 && old(sent) <= sent && sent[|sent| - 2].heardBefore == |old(heard)|
      ensures ok ==> Opened(heard, sent[|sent| - 2], sent[|sent| - 1], prompt, threadId.value, turnId.value)
      ensures ok ==> dispatches == old(dispatches) + [Dispatch(|sent|, sent[|sent| - 1].heardBefore)]
      ensures OpeningAnswers(old(Here()), accounting) == if ok then Some(Here()) else None
    {
      hide Tracks, ThreadAnswer, TurnAnswer;
      ok := StartThread();
      if !ok { return; }
      ghost var first := heard;
      ok := StartTurn(prompt);
      if ok {
        StillAnswered(first, heard, |old(heard)|, |first|, old(nextId), Thread(true, threadId.value));
        assert heard[..|first|] == first && heard[..|heard|] == heard;
      }
    }

    /** The loop of `run` that waits for the turn to complete. */
    method AwaitTurn() returns (ok: bool)
      requires Valid() && threadId.Some? && turnId.Some? && turnCompleted.None?
      modifies `messages, `incoming, `heard
      modifies `announcedThreadId, `announcedTurnId, `turnCompleted, `completedMessages, `retainedTextBytes, `lastUsage
      ensures ok ==> Valid() && Advanced() && turnCompleted.Some? && |heard| > |old(heard)|
      ensures ok ==> heard[|heard| - 1] == Notification(TurnCompleted(threadId.value, turnCompleted.value))
      ensures Completion(old(Here())) == if ok then Some(Here()) else None
    {
      hide Tracks, Next;
      while turnCompleted.None?
        invariant Valid() && Advanced()
        invariant turnCompleted.Some? ==> |heard| > |old(heard)|
        invariant turnCompleted.Some? ==>
                  heard[|heard| - 1] == Notification(TurnCompleted(threadId.value, turnCompleted.value))
        invariant Completion(Here()) == Completion(old(Here()))
        decreases |incoming|
      {
        ok := ReceiveNotification();
        if !ok { return; }
      }
      ok := true;
    }

    /** From the start of the thread to the answer. */
    method RunTurn(prompt: string) returns (output: Option<Text>)
      requires Valid() && threadId.None? && turnId.None? && turnCompleted.None? && !disablingSkills
      modifies `messages, `incoming, `heard, `nextId, `sent, `dispatches, `threadId, `turnId
      modifies `announcedThreadId, `announcedTurnId, `turnCompleted, `completedMessages, `retainedTextBytes, `lastUsage
      ensures output.Some? ==> Valid() && Advanced() && threadId.Some? && turnId.Some?
      ensures output.Some? ==> Decided(heard, Now(), output.value)
      ensures output.Some? ==>
                |sent| == |old(sent)| + 2 && old(sent) <= sent && sent[|sent| - 2].heardBefore == |old(heard)|
      ensures output.Some? ==>
                Opening(heard, sent[|sent| - 2], sent[|sent| - 1], prompt, |heard| - 1, threadId.value, turnId.value)
      ensures output.Some? ==> dispatches == old(dispatches) + [Dispatch(|sent|, sent[|sent| - 1].heardBefore)]
      ensures TurnAnswers(old(Here()), accounting) == if output.Some? then Some((output.value, Here())) else None
    {
      hide Tracks, OpeningAnswers, Completion, Finalisable, Opening, Opened, AnsweredBy;
      var ok := OpenTurn(prompt);
      if !ok { return None; }
      ghost var started := heard;
      ok := AwaitTurn();
      if !ok { return None; }
      OpeningStands(started, heard, sent[|sent| - 2], sent[|sent| - 1], prompt, threadId.value, turnId.value);
      output := FinalizeTurn();
    }

    /**
     `run`. It accepts exactly the streams that `Accepts` does, with the same outcome, and that outcome is
     accounted for by the messages heard and the requests sent.
    */
    method Run(prompt: string) returns (outcome: Option<TurnOutcome>)
      requires Valid() && Here() == Point(stream, 0, IDLE, 1) && heard == [] && sent == [] && dispatches == []
      modifies this
      ensures outcome == Accepts(stream, accounting)
      ensures outcome.Some? ==> heard <= stream
      ensures outcome.Some? ==>
                exists k, thread, turn :: Accounted(heard, sent, dispatches, prompt, k, thread, turn, outcome.value)
    {
      hide Tracks, Accounted, Opening, AnsweredBy, Finalisable, Told, SkillsKept, PreparationAnswers, TurnAnswers;
      hide FlatAnswer, Preparation;
      ghost var models, account, first, last;
      var ok;
      ok, models, account, first, last := Prepare();
      if !ok { return None; }
      ghost var begun, requests := heard, sent;
      var output := RunTurn(prompt);
      if output.None? { return None; }
      ghost var before, s, asked := heard, Now(), sent;
      ok := Ask(RateLimitsRead);
      if !ok || lastUsage.None? { return None; }
      outcome := Some(TurnOutcome(output.value, lastUsage.value));
      TurnIsAccounted(begun, before, s, heard, Now(), outcome.value);
      SkillsKeptOn(before, heard, |begun|);
      PreparationStands(requests, begun, heard, models, account, first, last);
      RunIsAccounted(before, heard, requests, asked, sent, dispatches, prompt, s.thread.value, s.completion.value,
                     outcome.value, models, account, first, last);
    }
  }

  /** The last message heard completed the turn, and the messages before it decide the output. */
  ghost predicate Decided(heard: seq<Message>, s: State, output: Text)
  {
    && s.thread.Some? && s.completion.Some? && heard != []
    && heard[|heard| - 1] == Notification(TurnCompleted(s.thread.value, s.completion.value))
    && Finalisable(s.completion.value, s.messages) && output == s.messages[|s.messages| - 1].text
  }

  /**
   The thread is started and answered, then the turn in it, both before message k. Before the thread's
   answer nothing was about a thread, and none but this one was announced.
  */
  ghost predicate Opening(heard: seq<Message>, a: Sent, b: Sent, prompt: string, k: nat, thread: Id, turn: Id)
  {
    && a.request == ThreadStart && AnsweredBy(heard, a.heardBefore, b.heardBefore, a.id, Thread(true, thread))
    && b.request == TurnStart(thread, prompt)
    && InScope(heard[..b.heardBefore], None, None) && Only(AnnouncedThreads(heard[..b.heardBefore]), thread)
    && exists j :: 0 <= j <= k && TurnAnswered(heard, b, j, thread, turn)
  }

  /**
   The turn is answered by message j - 1, with nothing about a turn before it, and with its own
   announcement or none.
  */
  ghost predicate TurnAnswered(heard: seq<Message>, b: Sent, j: nat, thread: Id, turn: Id)
  {
    && AnsweredBy(heard, b.heardBefore, j, b.id, Started(turn, true))
    && InScope(heard[..j], Some(thread), None) && Only(AnnouncedTurns(heard[..j]), turn)
  }

  /** Just so, with nothing heard after the second answer. */
  ghost predicate Opened(heard: seq<Message>, a: Sent, b: Sent, prompt: string, thread: Id, turn: Id)
  {
    && a.request == ThreadStart && AnsweredBy(heard, a.heardBefore, b.heardBefore, a.id, Thread(true, thread))
    && b.request == TurnStart(thread, prompt) && TurnAnswered(heard, b, |heard|, thread, turn)
    && InScope(heard[..b.heardBefore], None, None) && Only(AnnouncedThreads(heard[..b.heardBefore]), thread)
  }

  lemma StillAnswered(short: seq<Message>, long: seq<Message>, from: nat, to: nat, id: nat, result: Result)
    requires short <= long && AnsweredBy(short, from, to, id, result)
    ensures AnsweredBy(long, from, to, id, result)
  {
  }

  lemma OpeningStands(short: seq<Message>, long: seq<Message>, a: Sent, b: Sent, prompt: string, thread: Id, turn: Id)
    requires short <= long && |short| < |long| && Opened(short, a, b, prompt, thread, turn)
    ensures Opening(long, a, b, prompt, |long| - 1, thread, turn)
  {
    assert long[..|short|] == short[..|short|] && long[..b.heardBefore] == short[..b.heardBefore];
    assert TurnAnswered(long, b, |short|, thread, turn);
  }

  lemma OpeningKept(short: seq<Message>, long: seq<Message>, a: Sent, b: Sent, prompt: string, k: nat, thread: Id,
          turn: Id)
    requires short <= long && Opening(short, a, b, prompt, k, thread, turn)
    ensures Opening(long, a, b, prompt, k, thread, turn)
  {
    var j :| 0 <= j <= k && TurnAnswered(short, b, j, thread, turn);
    assert long[..j] == short[..j] && long[..b.heardBefore] == short[..b.heardBefore];
    assert TurnAnswered(long, b, j, thread, turn);
  }

  lemma CompletionAddsNothing(before: seq<Message>, thread: Id, turn: Turn)
    requires before != [] && before[|before| - 1] == Notification(TurnCompleted(thread, turn))
    ensures Agents(before) == Agents(before[..|before| - 1])
  {
  }

  /**
   What the messages of an accepted run tell: message k is the only completion of a turn; every item
   is of that turn; and what was streamed before message k decides the output.
  */
  ghost predicate Told(heard: seq<Message>, k: nat, thread: Id, turn: Turn, outcome: TurnOutcome)
  {
    && k < |heard| && heard[k] == Notification(TurnCompleted(thread, turn))
    && Completions(heard) == [TurnCompleted(thread, turn)]
    && InScope(heard, Some(thread), Some(turn.id))
    && |AnnouncedThreads(heard)| <= 1 && |AnnouncedTurns(heard)| <= 1
    && Finalisable(turn, Agents(heard[..k])) && outcome.output == Agents(heard[..k])[|Agents(heard[..k])| - 1].text
    && |Agents(heard)| <= MAX_COMPLETED_MESSAGES && TextBytes(Agents(heard)) <= MAX_RETAINED_TEXT_BYTES
    && LastUsage(heard) == Some(outcome.tokens)
  }

  /**
   What an accepted run looks like from outside: its messages tell of one turn, its requests are
   answered in order with one dispatch, and from the start of the thread on no skill changed.
  */
  ghost predicate Accounted(heard: seq<Message>, sent: seq<Sent>, dispatches: seq<Dispatch>, prompt: string,
                            k: nat, thread: Id, turn: Turn, outcome: TurnOutcome)
  {
    && |heard| <= MAX_MESSAGES && Told(heard, k, thread, turn, outcome)
    && Requests(heard, sent, dispatches, prompt, k, thread, turn.id)
    && SkillsKept(heard, sent[|sent| - 3].heardBefore)
    && WellPrepared(sent[..|sent| - 3], heard)
  }

  ghost predicate WellPrepared(sent: seq<Sent>, heard: seq<Message>)
  {
    exists models, account, first, last :: Protocol.Preparation(sent, heard, models, account, first, last)
  }

  /**
   Preparation, then one thread, one turn in it, and the closing read of the limits right after message
   k, each answered under its own id; the turn's request is the one dispatch.
  */
  ghost predicate Requests(heard: seq<Message>, sent: seq<Sent>, dispatches: seq<Dispatch>, prompt: string, k: nat,
                           thread: Id, turn: Id)
  {
    && |sent| >= 3 && (forall i :: 0 <= i < |sent| - 3 ==> Protocol.Preparatory(sent[i].request))
    && var (a, b, c) := (sent[|sent| - 3], sent[|sent| - 2], sent[|sent| - 1]);
    && Opening(heard, a, b, prompt, k, thread, turn)
    && c.request == RateLimitsRead && c.heardBefore == k + 1 && AnsweredBy(heard, k + 1, |heard|, c.id, Plain(true))
    && dispatches == [Dispatch(|sent| - 1, b.heardBefore)]
  }

  lemma TurnIsAccounted(begun: seq<Message>, before: seq<Message>, s: State, heard: seq<Message>, t: State,
          outcome: TurnOutcome)
    requires Tracks(s, before) && Tracks(t, heard) && before <= heard
    requires Decided(before, s, outcome.output) && t.thread == s.thread && t.completion == s.completion
    requires t.usage == Some(outcome.tokens)
    ensures Told(heard, |before| - 1, s.thread.value, s.completion.value, outcome)
    ensures s.turn == Some(s.completion.value.id)
  {
    hide Finalisable, Agents, LastUsage, TextBytes, Completions;
    CompletionAddsNothing(before, s.thread.value, s.completion.value);
    assert heard[..|before| - 1] == before[..|before| - 1];
  }

  lemma PreparationStands(sent: seq<Sent>, short: seq<Message>, long: seq<Message>, models: nat, account: nat,
          first: Result, last: Result)
    requires short <= long && Protocol.Preparation(sent, short, models, account, first, last)
    ensures Protocol.Preparation(sent, long, models, account, first, last)
  {
    hide SkillsKept, Protocol.Catalogued, Protocol.Disabled;
    assert long[..sent[account + 2].heardBefore] == short[..sent[account + 2].heardBefore];
  }

  lemma SkillsKeptOn(before: seq<Message>, heard: seq<Message>, from: nat)
    requires before <= heard && SkillsKept(before, from) && SkillsKept(heard, |before|)
    ensures SkillsKept(heard, from)
  {
  }

  lemma RunIsAccounted(before: seq<Message>, heard: seq<Message>, requests: seq<Sent>, asked: seq<Sent>,
          sent: seq<Sent>, dispatches: seq<Dispatch>, prompt: string, thread: Id, turn: Turn, outcome: TurnOutcome,
          models: nat, account: nat, first: Result, last: Result)
    requires Protocol.Preparation(requests, heard, models, account, first, last)
    requires before != [] && before <= heard && |heard| <= MAX_MESSAGES
    requires Told(heard, |before| - 1, thread, turn, outcome)
    requires forall i :: 0 <= i < |requests| ==> Protocol.Preparatory(requests[i].request)
    requires |asked| == |requests| + 2 && requests <= asked && |sent| > 0 && sent == asked + [sent[|sent| - 1]]
    requires Opening(before, asked[|asked| - 2], asked[|asked| - 1], prompt, |before| - 1, thread, turn.id)
    requires var c := sent[|sent| - 1];
             && c.request == RateLimitsRead && c.heardBefore == |before|
             && AnsweredBy(heard, |before|, |heard|, c.id, Plain(true))
    requires dispatches == [Dispatch(|asked|, asked[|asked| - 1].heardBefore)]
    requires SkillsKept(heard, asked[|asked| - 2].heardBefore)
    ensures Accounted(heard, sent, dispatches, prompt, |before| - 1, thread, turn, outcome)
  {
    hide Opening, AnsweredBy, Told, SkillsKept, Protocol.Preparation;
    assert sent[..|sent| - 3] == requests;
    OpeningKept(before, heard, asked[|asked| - 2], asked[|asked| - 1], prompt, |before| - 1, thread, turn.id);
  }

  /** Identity and phases: the checks on a turn's messages. */
  method JudgeMessages(streamed: seq<AgentMessage>) returns (ok: bool)
    requires streamed != []
    ensures ok <==> Answered(streamed)
  {
    IdsDistinct(streamed);
    if |Ids(streamed)| != |streamed| { return false; }
    var answers := FinalAnswers(streamed);
    var final := streamed[|streamed| - 1];
    AnswersTell(streamed);
    if |answers| > 1 { return false; }
    if final.phase == Commentary { return false; }
    if answers != [] && answers[0] != |streamed| - 1 { return false; }
    ok := !Blank(final.text);
  }

  /** The loop over a fully loaded turn's items. */
  method ListedMessages(items: seq<Item>) returns (r: Option<seq<AgentMessage>>)
    ensures r.Some? <==> Unfit !in items
    ensures r.Some? ==> r.value == ItemMessages(items)
  {
    var listed: seq<AgentMessage> := [];
    for i := 0 to |items|
      invariant listed == ItemMessages(items[..i]) && Unfit !in items[..i]
    {
      assert items[..i + 1][..i] == items[..i];
      if items[i].Unfit? { return None; }
      if items[i].Agent? { listed := listed + [items[i].message]; }
    }
    assert items[..|items|] == items;
    r := Some(listed);
  }

  function Ids(ms: seq<AgentMessage>): set<Id> { set m | m in ms :: m.id }

  /** The set of ids is as large as the list exactly when no id repeats. */
  lemma {:induction false} IdsDistinct(ms: seq<AgentMessage>)
    ensures |Ids(ms)| <= |ms|
    ensures |Ids(ms)| == |ms| <==> DistinctIds(ms)
  {
    if ms != [] {
      var init, last := ms[..|ms| - 1], ms[|ms| - 1];
      assert ms == init + [last];
      IdsDistinct(init);
      OneMoreId(init, last);
    }
  }

  lemma OneMoreId(init: seq<AgentMessage>, last: AgentMessage)
    ensures Ids(init + [last]) == Ids(init) + {last.id}
    ensures DistinctIds(init + [last]) <==> DistinctIds(init) && last.id !in Ids(init)
  {
    var ms := init + [last];
    assert forall i :: 0 <= i < |init| ==> ms[i] == init[i];
    if last.id in Ids(init) {
      var i :| 0 <= i < |init| && init[i].id == last.id;
      assert ms[i].id == ms[|init|].id;
    }
  }

  /** Where the messages marked as final answers are; the source compares the messages by identity. */
  function FinalAnswers(ms: seq<AgentMessage>): seq<nat>
  {
    if ms == [] then [] else
      FinalAnswers(ms[..|ms| - 1]) + if ms[|ms| - 1].phase == FinalAnswer then [|ms| - 1] else []
  }

  lemma {:induction false} AnswersTell(ms: seq<AgentMessage>)
    ensures forall i :: i in FinalAnswers(ms) <==> 0 <= i < |ms| && ms[i].phase == FinalAnswer
    ensures ms != [] ==>
      ((|FinalAnswers(ms)| <= 1 && (FinalAnswers(ms) == [] || FinalAnswers(ms)[0] == |ms| - 1))
        <==> forall i :: 0 <= i < |ms| - 1 ==> ms[i].phase != FinalAnswer)
  {
    if ms != [] {
      var init := ms[..|ms| - 1];
      AnswersTell(init);
      assert FinalAnswers(init) == [] || FinalAnswers(init)[0] in FinalAnswers(init);
    }
  }
}
