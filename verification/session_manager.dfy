/** The per-session conversation state: the bounded history of question and
    answer turns, the list of generated image files and the session id, and
    the context strings rendered from the history for the language model.
    The Flask session is a value passed in and returned; the clock, the
    process id hash and the `DB_NAME` environment variable are parameters. */
module SessionManager {
  import opened Common
  import opened Text

  /** What a turn stores as its answer: a text message, or a response
      payload dictionary (the card, text, table and diagram replies of the
      chat routes). A payload is kept as its `str()` rendering, which the
      caller supplies; cleaning for JSON leaves text unchanged. */
  datatype Answer = Text(text: string) | Payload(rendered: string)

  /** `str(response_obj)`. */
  function Rendered(a: Answer): string {
    match a
    case Text(x) => x
    case Payload(x) => x
  }

  /** One history entry. */
  datatype Turn = Turn(timestamp: string, question: string, response: Answer, sqlQuery: string, database: string)

  /** The session dictionary; a missing key is None. */
  datatype Session = Session(history: Option<seq<Turn>>, images: Option<seq<string>>, id: Option<string>)

  const MaxHistory := 10

  /** `session.get('conversation_history', [])`. */
  function History(s: Session): seq<Turn> {
    if s.history.Some? then s.history.value else []
  }

  /** `session.get('generated_images', [])`. */
  function Images(s: Session): seq<string> {
    if s.images.Some? then s.images.value else []
  }

  /** `session.get('id', 'unknown')`. */
  function SessionId(s: Session): string {
    if s.id.Some? then s.id.value else "unknown"
  }

  /** The last `n` elements (all of them when there are fewer). */
  function TakeLast<T>(xs: seq<T>, n: nat): (r: seq<T>)
    ensures |r| == (if |xs| <= n then |xs| else n)
    ensures r == xs[|xs| - |r|..]
  {
    if |xs| <= n then xs else xs[|xs| - n..]
  }

  /** `init_session`: fill in the missing keys, leave present ones alone.
      `freshId` is the eight-character hash of the clock and the process id. */
  function InitSession(s: Session, freshId: string): (r: Session)
    ensures r.history.Some? && r.images.Some? && r.id.Some?
    ensures s.history.Some? ==> r.history == s.history
    ensures s.images.Some? ==> r.images == s.images
    ensures s.id.Some? ==> r.id == s.id
    ensures s.history.None? ==> r.history == Some([])
    ensures s.images.None? ==> r.images == Some([])
    ensures s.id.None? ==> r.id == Some(freshId)
  {
    Session(if s.history.Some? then s.history else Some([]),
            if s.images.Some? then s.images else Some([]),
            if s.id.Some? then s.id else Some(freshId))
  }

  /** A second initialisation, with whatever id, changes nothing. */
  lemma InitSessionIdempotent(s: Session, id1: string, id2: string)
    ensures InitSession(InitSession(s, id1), id2) == InitSession(s, id1)
  {
  }

  /** `add_to_conversation_history`: append, then keep the last ten. */
  function AddTurn(s: Session, t: Turn): (r: Session)
    ensures |History(r)| == if |History(s)| + 1 <= MaxHistory then |History(s)| + 1 else MaxHistory
    ensures History(r)[|History(r)| - 1] == t
    ensures History(r)[..|History(r)| - 1] == History(s)[|History(s)| + 1 - |History(r)|..]
    ensures r.images == s.images && r.id == s.id
  {
    var prior := History(s);
    var h := prior + [t];
    if |h| > MaxHistory then
      var h' := h[|h| - MaxHistory..];
      assert h'[..|h'| - 1] == prior[|prior| + 1 - MaxHistory..];
      s.(history := Some(h'))
    else
      assert h[..|h| - 1] == prior;
      s.(history := Some(h))
  }

  /** One add keeps the last ten of the history extended by the turn. */
  lemma AddTurnIsLastTen(s: Session, t: Turn)
    ensures History(AddTurn(s, t)) == TakeLast(History(s) + [t], MaxHistory)
  {
  }

  /** Adding the turns one after another. */
  function AddTurns(s: Session, ts: seq<Turn>): Session
    decreases |ts|
  {
    if |ts| == 0 then s else AddTurns(AddTurn(s, ts[0]), ts[1..])
  }

  /** The history alone, pushed turn by turn through the cap. */
  function PushAll(h: seq<Turn>, ts: seq<Turn>): seq<Turn>
    decreases |ts|
  {
    if |ts| == 0 then h else PushAll(TakeLast(h + [ts[0]], MaxHistory), ts[1..])
  }

  lemma {:induction false} AddTurnsHistory(s: Session, ts: seq<Turn>)
    ensures History(AddTurns(s, ts)) == PushAll(History(s), ts)
    decreases |ts|
  {
    if |ts| > 0 {
      AddTurnIsLastTen(s, ts[0]);
      AddTurnsHistory(AddTurn(s, ts[0]), ts[1..]);
    }
  }

  lemma {:induction false} PushAllIsTakeLast(h: seq<Turn>, ts: seq<Turn>)
    requires |h| <= MaxHistory
    ensures PushAll(h, ts) == TakeLast(h + ts, MaxHistory)
    decreases |ts|
  {
    if |ts| == 0 {
      assert h + ts == h;
    } else {
      PushAllIsTakeLast(TakeLast(h + [ts[0]], MaxHistory), ts[1..]);
      TakeLastOfTakeLast(h + [ts[0]], ts[1..], MaxHistory);
      assert (h + [ts[0]]) + ts[1..] == h + ts;
    }
  }

  /** Whatever the turns, a history that starts within the cap is the last
      ten of everything added, so it never exceeds ten entries. */
  lemma AddTurnsKeepsLastTen(s: Session, ts: seq<Turn>)
    requires |History(s)| <= MaxHistory
    ensures History(AddTurns(s, ts)) == TakeLast(History(s) + ts, MaxHistory)
    ensures |History(AddTurns(s, ts))| <= MaxHistory
  {
    AddTurnsHistory(s, ts);
    PushAllIsTakeLast(History(s), ts);
  }

  /** Cutting to the last `n` before appending does not change the last `n`
      after it. */
  lemma TakeLastOfTakeLast<T>(a: seq<T>, b: seq<T>, n: nat)
    ensures TakeLast(TakeLast(a, n) + b, n) == TakeLast(a + b, n)
  {
    if |a| > n {
      var a' := TakeLast(a, n);
      assert a + b == a[..|a| - n] + (a' + b);
      TakeLastOfSuffix(a[..|a| - n], a' + b, n);
    }
  }

  /** The last `n` of a sequence lie within any suffix at least `n` long. */
  lemma TakeLastOfSuffix<T>(p: seq<T>, y: seq<T>, n: nat)
    requires |y| >= n
    ensures TakeLast(p + y, n) == TakeLast(y, n)
  {
    var x := p + y;
    assert x[|p|..] == y;
    assert x[|x| - n..] == x[|p|..][|y| - n..];
  }

  /** `clear_conversation_history`, which also runs `delete_session_images`
      (the files themselves are outside the model). */
  function ClearConversationHistory(s: Session): (r: Session)
    ensures History(r) == [] && Images(r) == []
    ensures r.id == s.id
  {
    Session(Some([]), if s.images.Some? then Some([]) else None, s.id)
  }

  /** `add_generated_image`. */
  function AddGeneratedImage(s: Session, filename: string): (r: Session)
    ensures Images(r) == Images(s) + [filename]
    ensures r.history == s.history && r.id == s.id
  {
    s.(images := Some(Images(s) + [filename]))
  }

  // ---------------------------------------------------------------------
  // Context for the language model

  /** `s[:n] + ("..." if len(s) > n else "")`. */
  function Cut(s: string, n: int): (r: string)
    ensures n >= 0 && |s| <= n ==> r == s
    ensures n >= 0 && |s| > n ==> r == s[..n] + "..." && |r| == n + 3
  {
    PyTake(s, n) + (if |s| > n then "..." else "")
  }

  const ContextHeader := "Recent conversation history:\n"

  function TurnBlock(t: Turn, truncate: int): string {
    "User: " + Cut(t.question, truncate) + "\nAssistant: " + Cut(Rendered(t.response), truncate) + "\n---\n"
  }

  function Blocks(ts: seq<Turn>, truncate: int): string
    decreases |ts|
  {
    if |ts| == 0 then "" else TurnBlock(ts[0], truncate) + Blocks(ts[1..], truncate)
  }

  /** `get_conversation_context` as written: the turns taken are
      `history[-limit:]`, so a limit of 0 takes the whole history. */
  function ConversationContextAsWritten(s: Session, limit: int, truncate: int): (r: string)
    ensures r == "" <==> History(s) == []
    ensures History(s) != [] ==> r == ContextHeader + Blocks(PyDrop(History(s), -limit), truncate)
  {
    var h := History(s);
    if h == [] then "" else ContextHeader + Blocks(PyDrop(h, -limit), truncate)
  }

  /** `get_conversation_context` with the limit read as "at most `limit`
      turns": the most recent min(limit, n) turns, none for a limit of 0. */
  function ConversationContext(s: Session, limit: int, truncate: int): (r: string)
    ensures r == "" <==> History(s) == []
    ensures History(s) != [] ==> r == ContextHeader + Blocks(TakeLast(History(s), if limit < 0 then 0 else limit), truncate)
  {
    var h := History(s);
    if h == [] then "" else ContextHeader + Blocks(TakeLast(h, if limit < 0 then 0 else limit), truncate)
  }

  /** For every positive limit the two readings agree. */
  lemma ContextAgreesForPositiveLimits(s: Session, limit: int, truncate: int)
    requires limit >= 1
    ensures ConversationContextAsWritten(s, limit, truncate) == ConversationContext(s, limit, truncate)
  {
    var h := History(s);
    if h != [] && limit > |h| {
      assert PyDrop(h, -limit) == h;
    }
  }

  /** As written, asking for no turns renders every turn of a non-empty
      history, whereas the intended reading renders the header alone. */
  lemma ContextLimitZeroTakesEverything(s: Session, truncate: int)
    requires History(s) != []
    ensures ConversationContextAsWritten(s, 0, truncate) == ContextHeader + Blocks(History(s), truncate)
    ensures ConversationContext(s, 0, truncate) == ContextHeader
    ensures ConversationContextAsWritten(s, 0, truncate) != ConversationContext(s, 0, truncate)
  {
    var h := History(s);
    assert PyDrop(h, 0) == h;
    assert Blocks(TakeLast(h, 0), truncate) == "";
    assert |TurnBlock(h[0], truncate)| > 0;
    assert |Blocks(h, truncate)| > 0;
  }

  const ContextKeywords := ["previous", "before", "last", "earlier", "that", "those", "same"]

  /** A turn on which the optimized context raises: it has SQL, so its
      answer is asked for `startswith`, and the answer is a dictionary,
      which has no such method. */
  predicate Raises(t: Turn) {
    t.sqlQuery != "" && t.response.Payload?
  }

  /** One turn of the optimized context; None when the turn raises. */
  function OptimizedBlock(t: Turn): Option<string> {
    var q := "Q: " + Cut(t.question, 50) + "\n";
    if t.sqlQuery == "" then Some(q)
    else match t.response
      case Payload(_) => None
      case Text(x) => Some(q + (if !StartsWith(x, "Error") then "Found: " + Cut(x, 30) + "\n" else ""))
  }

  /** The blocks of the turns in order; None as soon as one turn raises. */
  function OptimizedBlocks(ts: seq<Turn>): (r: Option<string>)
    ensures r.None? <==> exists i :: 0 <= i < |ts| && Raises(ts[i])
    decreases |ts|
  {
    if |ts| == 0 then Some("")
    else
      var rest := OptimizedBlocks(ts[1..]);
      assert forall i :: 1 <= i < |ts| ==> ts[i] == ts[1..][i - 1];
      match OptimizedBlock(ts[0])
      case None => None
      case Some(b) => if rest.None? then None else Some(b + rest.value)
  }

  /** `get_optimized_conversation_context`: nothing unless the question
      refers back to earlier turns; then at most the last two. None stands
      for the AttributeError raised when one of those two turns has SQL and
      a payload answer. */
  function OptimizedConversationContext(s: Session, question: string): (r: Option<string>)
    ensures !ContainsAny(Lower(question), ContextKeywords) || History(s) == [] ==> r == Some("")
    ensures ContainsAny(Lower(question), ContextKeywords) && History(s) != [] ==>
      var recent := TakeLast(History(s), 2);
      && (r.None? <==> exists i :: 0 <= i < |recent| && Raises(recent[i]))
      && (r.Some? ==> StartsWith(r.value, "Recent context:\n"))
  {
    var h := History(s);
    if h == [] || !ContainsAny(Lower(question), ContextKeywords) then Some("")
    else match OptimizedBlocks(TakeLast(h, 2))
      case None => None
      case Some(b) => Some("Recent context:\n" + b)
  }

  /** Every question line of the optimized context is at most 53 characters
      of question; a turn raises iff it has SQL and a payload; and a turn
      that does not raise gets a "Found" line iff it has SQL and a text
      answer not starting with "Error". */
  lemma OptimizedBlockShape(t: Turn)
    ensures |Cut(t.question, 50)| <= 53
    ensures OptimizedBlock(t).None? <==> Raises(t)
    ensures var b := OptimizedBlock(t);
      b.Some? ==>
        && StartsWith(b.value, "Q: " + Cut(t.question, 50) + "\n")
        && ((t.sqlQuery != "" && t.response.Text? && !StartsWith(t.response.text, "Error"))
            <==> |b.value| > 3 + |Cut(t.question, 50)| + 1)
  {
  }

  /** A card, text or table reply with SQL among the last two turns makes
      the optimized context raise for any question that refers back. */
  lemma PayloadWithSqlRaises(s: Session, question: string, t: Turn)
    requires History(s) != [] && History(s)[|History(s)| - 1] == t
    requires t.sqlQuery != "" && t.response.Payload?
    requires ContainsAny(Lower(question), ContextKeywords)
    ensures OptimizedConversationContext(s, question).None?
  {
    var recent := TakeLast(History(s), 2);
    assert recent[|recent| - 1] == t;
  }

  /** Text answers never raise: over a history of text turns the optimized
      context always renders. */
  lemma TextTurnsNeverRaise(s: Session, question: string)
    requires forall i :: 0 <= i < |History(s)| ==> History(s)[i].response.Text?
    ensures OptimizedConversationContext(s, question).Some?
  {
    var h := History(s);
    if h != [] && ContainsAny(Lower(question), ContextKeywords) {
      var recent := TakeLast(h, 2);
      forall i | 0 <= i < |recent| ensures !Raises(recent[i]) {
        assert recent[i] == h[|h| - |recent| + i];
      }
    }
  }
}
