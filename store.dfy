/**
 * The `customerData` map as a value: one session per phone, created lazily on
 * the first message, and the `message` handler as a function from the map, the
 * sender and the raw body to the new map, the reply and the order logged.
 */
module Store {
  import opened Wrappers
  import opened JsString
  import opened Menu
  import opened Conversation

  /** Sessions keyed by the sender's chat id. */
  type Sessions = map<string, Session>

  /** What one inbound message does; no reply is sent to an ignored sender. */
  datatype Outcome = Outcome(sessions: Sessions, reply: Option<Reply>, order: Option<Order>)

  /** Group chats and status broadcasts are not answered. */
  predicate IsIgnoredSender(from: string)
  {
    Includes(from, "@g.us") || from == "status@broadcast"
  }

  /** The session a message from `from` is handled in: the stored one, or a fresh record. */
  function SessionOf(sessions: Sessions, from: string): Session
  {
    if from in sessions then sessions[from] else NewSession()
  }

  /**
   * The `message` handler: ignored senders change nothing; otherwise the body
   * is lower-cased and trimmed, the sender's session is created if missing,
   * and the dispatcher's transition is stored back under the sender.
   */
  function Deliver(sessions: Sessions, from: string, body: string): Outcome
  {
    if IsIgnoredSender(from) then Outcome(sessions, None, None)
    else
      var t := Step(SessionOf(sessions, from), Normalize(body));
      Outcome(sessions[from := t.session], Some(t.reply), t.order)
  }

  /** The sessions after a sequence of (sender, body) messages, oldest first. */
  function DeliverAll(sessions: Sessions, inbox: seq<(string, string)>): Sessions
    decreases |inbox|
  {
    if inbox == [] then sessions
    else DeliverAll(Deliver(sessions, inbox[0].0, inbox[0].1).sessions, inbox[1..])
  }

  /** Every stored session is reachable. */
  predicate AllInv(sessions: Sessions)
  {
    forall p :: p in sessions ==> Inv(sessions[p])
  }

  // ---------------------------------------------------------------------------
  // Session creation and isolation
  // ---------------------------------------------------------------------------

  /** A group chat or a status broadcast leaves every session as it was and gets no reply. */
  lemma IgnoredSenderChangesNothing(sessions: Sessions, from: string, body: string)
    requires IsIgnoredSender(from)
    ensures Deliver(sessions, from, body) == Outcome(sessions, None, None)
  {
  }

  /**
   * A message from any other sender is handled in that sender's stored session,
   * or in a fresh INICIO record with an empty cart, no address and total 0
   * when there is none; the result is stored under the sender, and only there.
   */
  lemma SenderSessionOnly(sessions: Sessions, from: string, body: string)
    requires !IsIgnoredSender(from)
    ensures var o := Deliver(sessions, from, body);
      && o.sessions.Keys == sessions.Keys + {from}
      && (from in sessions ==> o.sessions[from] == Step(sessions[from], Normalize(body)).session)
      && (from !in sessions ==>
            o.sessions[from] == Step(Session(INICIO, [], None, 0), Normalize(body)).session)
      && (forall p :: p in sessions && p != from ==> o.sessions[p] == sessions[p])
      && o.reply.Some?
  {
  }

  /** The normalised bodies of the messages `p` sent, in order. */
  function MessagesFrom(inbox: seq<(string, string)>, p: string): seq<string>
    decreases |inbox|
  {
    if inbox == [] then []
    else (if inbox[0].0 == p then [Normalize(inbox[0].1)] else []) + MessagesFrom(inbox[1..], p)
  }

  /** One message changes the session of its sender only. */
  lemma DeliverOne(sessions: Sessions, from: string, body: string, p: string)
    requires !IsIgnoredSender(p)
    ensures SessionOf(Deliver(sessions, from, body).sessions, p)
         == if from == p then Step(SessionOf(sessions, p), Normalize(body)).session else SessionOf(sessions, p)
  {
  }

  /**
   * Isolation: however the messages of several senders are interleaved, a
   * sender's session ends up exactly where that sender's own messages, on
   * their own, would take it.
   */
  lemma {:induction false} Isolation(sessions: Sessions, inbox: seq<(string, string)>, p: string)
    requires !IsIgnoredSender(p)
    ensures SessionOf(DeliverAll(sessions, inbox), p) == Run(SessionOf(sessions, p), MessagesFrom(inbox, p))
    decreases |inbox|
  {
    if inbox != [] {
      var (from, body) := inbox[0];
      var next := Deliver(sessions, from, body).sessions;
      DeliverOne(sessions, from, body, p);
      Isolation(next, inbox[1..], p);
      if from == p {
        RunCons(SessionOf(sessions, p), Normalize(body), MessagesFrom(inbox[1..], p));
      } else {
        assert MessagesFrom(inbox, p) == MessagesFrom(inbox[1..], p);
      }
    }
  }

  /**
   * The first message from a new sender that asks for no menu starts the
   * conversation: the sender is welcomed and moved to meal selection with an
   * empty cart. A first message that asks for the menu leaves the new
   * session in INICIO.
   */
  lemma FirstMessageWelcomes(sessions: Sessions, from: string, body: string)
    requires !IsIgnoredSender(from) && from !in sessions
    ensures var o := Deliver(sessions, from, body);
      && (!IsMenuRequest(Normalize(body)) ==>
            o.sessions[from] == Session(ESCOLHENDO_MARMITA, [], None, 0) && o.reply == Some(Welcome))
      && (IsMenuRequest(Normalize(body)) ==>
            o.sessions[from] == Session(INICIO, [], None, 0) && o.reply == Some(MenuCard))
  {
  }

  // ---------------------------------------------------------------------------
  // Reachability across all customers
  // ---------------------------------------------------------------------------

  lemma AllInvUpdate(sessions: Sessions, from: string, s: Session)
    requires AllInv(sessions) && Inv(s)
    ensures AllInv(sessions[from := s])
  {
  }

  lemma DeliverPreservesInv(sessions: Sessions, from: string, body: string)
    requires AllInv(sessions)
    ensures AllInv(Deliver(sessions, from, body).sessions)
  {
    if !IsIgnoredSender(from) {
      var s := SessionOf(sessions, from);
      assert Inv(s) by { NewSessionInv(); }
      var t := Step(s, Normalize(body));
      StepPreservesInv(s, Normalize(body));
      AllInvUpdate(sessions, from, t.session);
    }
  }

  lemma {:induction false} DeliverAllPreservesInv(sessions: Sessions, inbox: seq<(string, string)>)
    requires AllInv(sessions)
    ensures AllInv(DeliverAll(sessions, inbox))
    decreases |inbox|
  {
    if inbox != [] {
      DeliverPreservesInv(sessions, inbox[0].0, inbox[0].1);
      DeliverAllPreservesInv(Deliver(sessions, inbox[0].0, inbox[0].1).sessions, inbox[1..]);
    }
  }

  /**
   * Starting from an empty map, whatever messages arrive, every stored session
   * is in one of the five STATES, so the fallback reply is never sent.
   */
  lemma FallbackNeverSent(inbox: seq<(string, string)>, from: string, body: string)
    ensures AllInv(DeliverAll(map[], inbox))
    ensures Deliver(DeliverAll(map[], inbox), from, body).reply != Some(Fallback)
  {
    DeliverAllPreservesInv(map[], inbox);
    var sessions := DeliverAll(map[], inbox);
    if !IsIgnoredSender(from) {
      NewSessionInv();
      FallbackUnreachable(SessionOf(sessions, from), Normalize(body));
    }
  }
}
