/** Inbox deduplication: reserve a row and run the effect in one serializable transaction, with bounded retries. */
module Inbox {
  import opened Basics

  type Consumer = string

  /** Everything two deliveries of one message must agree on; the hash stands for the payload bytes. */
  datatype Identity = Identity(eventType: string, schemaVersion: int, correlationId: string, payloadHash: nat)

  datatype Key = Key(consumer: Consumer, messageId: Id)

  /** `effects` lists the effects that committed, in order. */
  datatype State = State(rows: map<Key, Identity>, effects: seq<Key>)

  const EMPTY := State(map[], [])

  /** How one attempt of the transaction ends unless the inbox decides it: the effect may throw, the database may report a
      serialization conflict (retryable), or the connection may be lost before or after the commit (not retryable). */
  datatype Fate = Commits | EffectThrows | Conflicts | LostBeforeCommit | LostAfterCommit

  datatype Reply = Processed | Duplicate | IdentityConflict | EffectFailed | RetryableError | ConnectionError | RetriesExhausted

  datatype Message = Message(key: Key, identity: Identity)

  function ProcessTx(s: State, m: Message, fate: Fate): (State, Reply) {
    if fate.Conflicts? then (s, RetryableError)
    else if fate.LostBeforeCommit? then (s, ConnectionError)
    else if m.key in s.rows then
      if s.rows[m.key] != m.identity then (s, IdentityConflict)
      else (s, if fate.LostAfterCommit? then ConnectionError else Duplicate)
    else if fate.EffectThrows? then (s, EffectFailed)
    else
      (State(s.rows[m.key := m.identity], s.effects + [m.key]), if fate.Commits? then Processed else ConnectionError)
  }

  function EffectsOf(effects: seq<Key>, key: Key): nat {
    if effects == [] then 0 else
    EffectsOf(effects[..|effects| - 1], key) + (if effects[|effects| - 1] == key then 1 else 0)
  }

  /** An effect commits together with its inbox row, and never twice. */
  ghost predicate OncePerKey(s: State) {
    forall key :: EffectsOf(s.effects, key) == if key in s.rows then 1 else 0
  }

  lemma ProcessKeepsOnce(s: State, m: Message, fate: Fate)
    requires OncePerKey(s)
    ensures OncePerKey(ProcessTx(s, m, fate).0)
  {
    var s' := ProcessTx(s, m, fate).0;
    forall key ensures EffectsOf(s'.effects, key) == if key in s'.rows then 1 else 0 {
      assert (s.effects + [m.key])[..|s.effects|] == s.effects;
    }
  }

  // ----- the retry loop, with other deliveries between the attempts -----

  datatype Delivery = Delivery(message: Message, fate: Fate)

  datatype Turn = Turn(others: seq<Delivery>, fate: Fate)

  function Run(s: State, deliveries: seq<Delivery>): State {
    if deliveries == [] then s else
    var n := |deliveries| - 1;
    ProcessTx(Run(s, deliveries[..n]), deliveries[n].message, deliveries[n].fate).0
  }

  function ProcessLoop(s: State, m: Message, turns: seq<Turn>): (State, Reply)
    decreases |turns|
  {
    if turns == [] then (s, RetriesExhausted) else
    var (s', reply) := ProcessTx(Run(s, turns[0].others), m, turns[0].fate);
    if reply.RetryableError? then ProcessLoop(s', m, turns[1..]) else (s', reply)
  }

  lemma {:induction false} RunKeepsOnce(s: State, deliveries: seq<Delivery>)
    requires OncePerKey(s)
    ensures OncePerKey(Run(s, deliveries))
    ensures forall key | key in s.rows :: key in Run(s, deliveries).rows && Run(s, deliveries).rows[key] == s.rows[key]
    decreases |deliveries|
  {
    if deliveries != [] {
      var n := |deliveries| - 1;
      RunKeepsOnce(s, deliveries[..n]);
      ProcessKeepsOnce(Run(s, deliveries[..n]), deliveries[n].message, deliveries[n].fate);
    }
  }

  // ----- what a whole history of deliveries leaves behind -----

  /** The transaction of a delivery whose message is new commits, reported or not. */
  predicate CommitsNew(d: Delivery) { d.fate.Commits? || d.fate.LostAfterCommit? }

  /** The first delivery under a key that commits. */
  function FirstCommit(deliveries: seq<Delivery>, key: Key): Option<Identity> {
    if deliveries == [] then None else
    var n := |deliveries| - 1;
    var d := deliveries[n];
    match FirstCommit(deliveries[..n], key)
    case Some(identity) => Some(identity)
    case None => if d.message.key == key && CommitsNew(d) then Some(d.message.identity) else None
  }

  /** Over every history of deliveries, repeated, reordered and failing at will: a message is recorded exactly if some
      delivery under its key committed, with the identity of the first that did, and its effect ran exactly once then. */
  lemma {:induction false} FirstCommitDecides(deliveries: seq<Delivery>, key: Key)
    ensures var s := Run(EMPTY, deliveries); var first := FirstCommit(deliveries, key);
            && (key in s.rows <==> first.Some?) && (first.Some? ==> s.rows[key] == first.value)
            && EffectsOf(s.effects, key) == if first.Some? then 1 else 0
    decreases |deliveries|
  {
    if deliveries != [] {
      var n := |deliveries| - 1;
      FirstCommitDecides(deliveries[..n], key);
      var s := Run(EMPTY, deliveries[..n]);
      assert (s.effects + [deliveries[n].message.key])[..|s.effects|] == s.effects;
    }
  }

  /** What a delivery is told depends only on the first commit under its key before it. */
  lemma ReplyTellsFirstCommit(deliveries: seq<Delivery>, d: Delivery)
    requires CommitsNew(d)
    ensures var reply := ProcessTx(Run(EMPTY, deliveries), d.message, d.fate).1;
            match FirstCommit(deliveries, d.message.key)
            case None => reply == if d.fate.Commits? then Processed else ConnectionError
            case Some(identity) =>
              if identity != d.message.identity then reply == IdentityConflict
              else reply == if d.fate.Commits? then Duplicate else ConnectionError
  {
    FirstCommitDecides(deliveries, d.message.key);
  }

  lemma {:induction false} FirstCommitStays(deliveries: seq<Delivery>, later: seq<Delivery>, key: Key)
    requires FirstCommit(deliveries, key).Some?
    ensures FirstCommit(deliveries + later, key) == FirstCommit(deliveries, key)
    decreases |later|
  {
    if later == [] {
      assert deliveries + later == deliveries;
    } else {
      var n := |later| - 1;
      assert (deliveries + later)[..|deliveries| + n] == deliveries + later[..n];
      FirstCommitStays(deliveries, later[..n], key);
    }
  }

  /** Further deliveries under keys that have committed leave every table as it is: any number of them, in any order, of the
      same or of a different message, whatever becomes of their transactions. */
  lemma {:induction false} RedeliveriesChangeNothing(deliveries: seq<Delivery>, later: seq<Delivery>)
    requires forall d | d in later :: FirstCommit(deliveries, d.message.key).Some?
    ensures Run(EMPTY, deliveries + later) == Run(EMPTY, deliveries)
    decreases |later|
  {
    if later == [] {
      assert deliveries + later == deliveries;
    } else {
      var n := |later| - 1;
      assert (deliveries + later)[..|deliveries| + n] == deliveries + later[..n];
      assert later[n] in later && forall d | d in later[..n] :: d in later;
      RedeliveriesChangeNothing(deliveries, later[..n]);
      FirstCommitDecides(deliveries, later[n].message.key);
    }
  }

  /** Whatever other consumers do between the attempts, the effect commits at most once; a caller that is told "processed"
      or "duplicate" has its message recorded with its own identity. */
  lemma {:induction false} LoopKeepsOnce(s: State, m: Message, turns: seq<Turn>)
    requires OncePerKey(s)
    ensures var (s', reply) := ProcessLoop(s, m, turns);
            && OncePerKey(s')
            && (reply in {Processed, Duplicate} ==>
                  m.key in s'.rows && s'.rows[m.key] == m.identity && EffectsOf(s'.effects, m.key) == 1)
            && (reply == IdentityConflict ==> m.key in s'.rows && s'.rows[m.key] != m.identity)
    decreases |turns|
  {
    if turns != [] {
      RunKeepsOnce(s, turns[0].others);
      var mid := Run(s, turns[0].others);
      ProcessKeepsOnce(mid, m, turns[0].fate);
      var (s', reply) := ProcessTx(mid, m, turns[0].fate);
      if reply.RetryableError? { LoopKeepsOnce(s', m, turns[1..]); }
    }
  }

  /** The loop gives up exactly when every attempt conflicted. */
  lemma {:induction false} ExhaustedExactlyWhen(s: State, m: Message, turns: seq<Turn>)
    ensures ProcessLoop(s, m, turns).1 == RetriesExhausted <==> forall i | 0 <= i < |turns| :: turns[i].fate.Conflicts?
    decreases |turns|
  {
    if turns != [] {
      var (s', reply) := ProcessTx(Run(s, turns[0].others), m, turns[0].fate);
      if reply.RetryableError? {
        ExhaustedExactlyWhen(s', m, turns[1..]);
        forall i | 1 <= i < |turns| ensures turns[i] == turns[1..][i - 1] {}
      }
    }
  }

  class InboxStore {
    var rows: map<Key, Identity>
    var effects: seq<Key>

    constructor ()
      ensures Tables() == EMPTY
    {
      rows, effects := map[], [];
    }

    function Tables(): State
      reads this
    {
      State(rows, effects)
    }

    /** INSERT ... ON CONFLICT DO NOTHING, then read the row that is already there. */
    method Reserve(m: Message) returns (existing: Option<Identity>)
      modifies `rows
      ensures existing == if m.key in old(rows) then Some(old(rows)[m.key]) else None
      ensures rows == if m.key in old(rows) then old(rows) else old(rows)[m.key := m.identity]
    {
      if m.key in rows {
        return Some(rows[m.key]);
      }
      rows := rows[m.key := m.identity];
      existing := None;
    }

    /** One serializable transaction: any ending but a commit takes the reservation back. */
    method ProcessOnce(m: Message, fate: Fate) returns (reply: Reply)
      modifies this
      ensures (Tables(), reply) == ProcessTx(old(Tables()), m, fate)
    {
      if fate.Conflicts? {
        return RetryableError;
      }
      if fate.LostBeforeCommit? {
        return ConnectionError;
      }
      var before := rows;
      var existing := Reserve(m);
      if existing.Some? {
        return if existing.value != m.identity then IdentityConflict
               else if fate.LostAfterCommit? then ConnectionError else Duplicate;
      }
      if fate.EffectThrows? {
        rows := before;
        return EffectFailed;
      }
      effects := effects + [m.key];
      reply := if fate.Commits? then Processed else ConnectionError;
    }

    method Interleave(deliveries: seq<Delivery>)
      modifies this
      ensures Tables() == Run(old(Tables()), deliveries)
    {
      for i := 0 to |deliveries|
        invariant Tables() == Run(old(Tables()), deliveries[..i])
      {
        assert deliveries[..i + 1][..i] == deliveries[..i];
        var _ := ProcessOnce(deliveries[i].message, deliveries[i].fate);
      }
      assert deliveries[..|deliveries|] == deliveries;
    }

    /** The bounded loop around the transaction; only retryable conflicts lead to another attempt. */
    method ProcessForConsumer(m: Message, turns: seq<Turn>) returns (reply: Reply)
      modifies this
      ensures (Tables(), reply) == ProcessLoop(old(Tables()), m, turns)
    {
      for attempt := 0 to |turns|
        invariant ProcessLoop(old(Tables()), m, turns) == ProcessLoop(Tables(), m, turns[attempt..])
      {
        assert turns[attempt..][0] == turns[attempt] && turns[attempt..][1..] == turns[attempt + 1..];
        Interleave(turns[attempt].others);
        reply := ProcessOnce(m, turns[attempt].fate);
        if reply != RetryableError {
          return;
        }
      }
      reply := RetriesExhausted;
    }
  }
}
