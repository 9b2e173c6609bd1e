/** Routing as a plain set of (exchange, key, queue) bindings: the reference that the broker's nested
    maps of exchanges and queues are held to. */
module Routing {
  import opened Messages

  datatype QueueView = QueueView(messages: seq<Message>, minted: nat, dlx: string, dlxKey: string)

  datatype Plain = Plain(
    queues: map<string, QueueView>,
    exchanges: set<string>,
    bindings: set<(string, string, string)>)

  datatype Op =
    | DeclareQueue(name: string, dlx: string, dlxKey: string)
    | DeclareExchange(name: string)
    | BindQueue(exchange: string, queue: string, key: string)
    | Publish(exchange: string, key: string, body: Bytes)
    | Nack(queue: string, m: Message, requeue: bool)   // a message taken from a consumer of that queue

  /** One more copy, with the queue's own next id and tag. */
  function Append(q: QueueView, exchange: string, key: string, body: Bytes): QueueView {
    q.(messages := q.messages + [Message(q.minted, TagOf(q.minted), body, exchange, key)], minted := q.minted + 1)
  }

  ghost function Copies(queues: map<string, QueueView>, bindings: set<(string, string, string)>,
                        e: string, k: string, body: Bytes): (r: map<string, QueueView>)
    ensures r.Keys == queues.Keys
    ensures forall n :: n in queues ==>
              r[n] == if (e, k, n) in bindings then Append(queues[n], e, k, body) else queues[n]
    decreases |queues|
  {
    if queues == map[] then map[] else
      var n :| n in queues;
      var r := Copies(queues - {n}, bindings, e, k, body);
      r[n := if (e, k, n) in bindings then Append(queues[n], e, k, body) else queues[n]]
  }

  /** One copy to each queue bound under exactly this key. */
  ghost function Fan(p: Plain, e: string, k: string, body: Bytes): Plain {
    if e in p.exchanges then p.(queues := Copies(p.queues, p.bindings, e, k, body)) else p
  }

  /** Back to the front, on to the dead-letter exchange under its key or the message's own, or dropped. */
  ghost function Settle(p: Plain, n: string, m: Message, requeue: bool): Plain
    requires n in p.queues
  {
    var q := p.queues[n];
    if requeue then p.(queues := p.queues[n := q.(messages := [m] + q.messages)])
    else if q.dlx != "" then Fan(p, q.dlx, if q.dlxKey == "" then m.routingKey else q.dlxKey, m.body)
    else p
  }

  ghost function Step(p: Plain, op: Op): Plain {
    match op
    case DeclareQueue(n, dlx, k) => if n in p.queues then p else p.(queues := p.queues[n := QueueView([], 0, dlx, k)])
    case DeclareExchange(n) => p.(exchanges := p.exchanges + {n})
    case BindQueue(e, n, k) =>
      if e in p.exchanges && n in p.queues then p.(bindings := p.bindings + {(e, k, n)}) else p
    case Publish(e, k, body) => Fan(p, e, k, body)
    case Nack(n, m, requeue) => if n in p.queues then Settle(p, n, m, requeue) else p
  }

  ghost function After(ops: seq<Op>): Plain {
    if ops == [] then Plain(map[], {}, {}) else Step(After(ops[..|ops| - 1]), ops[|ops| - 1])
  }

  predicate Declares(op: Op, n: string) {
    op.DeclareQueue? && op.name == n
  }

  /** Both ends were declared before position `i`. */
  ghost predicate DeclaredBefore(ops: seq<Op>, i: nat, e: string, n: string) {
    && (exists a :: 0 <= a < i && a < |ops| && ops[a] == DeclareExchange(e))
    && (exists b :: 0 <= b < i && b < |ops| && Declares(ops[b], n))
  }

  lemma {:induction false} DeclaredIff(ops: seq<Op>, e: string, n: string)
    ensures e in After(ops).exchanges <==> exists a :: 0 <= a < |ops| && ops[a] == DeclareExchange(e)
    ensures n in After(ops).queues <==> exists b :: 0 <= b < |ops| && Declares(ops[b], n)
  {
    if ops != [] {
      var k := |ops| - 1;
      var h := ops[..k];
      DeclaredIff(h, e, n);
      if a :| 0 <= a < |h| && h[a] == DeclareExchange(e) {
        assert ops[a] == DeclareExchange(e);
      }
      if b :| 0 <= b < |h| && Declares(h[b], n) {
        assert Declares(ops[b], n);
      }
      if e in After(ops).exchanges && e !in After(h).exchanges {
        assert ops[k] == DeclareExchange(e);
      }
      if a :| 0 <= a < |ops| && ops[a] == DeclareExchange(e) {
        assert a < k ==> h[a] == DeclareExchange(e);
      }
      if n in After(ops).queues && n !in After(h).queues {
        assert Declares(ops[k], n);
      }
      if b :| 0 <= b < |ops| && Declares(ops[b], n) {
        assert b < k ==> Declares(h[b], n);
      }
    }
  }

  /** Some bind among the operations asked for exactly this binding after both ends were declared. */
  ghost predicate Asked(ops: seq<Op>, e: string, k: string, n: string) {
    exists i :: 0 <= i < |ops| && ops[i] == BindQueue(e, n, k) && DeclaredBefore(ops, i, e, n)
  }

  lemma AskedStep(ops: seq<Op>, e: string, k: string, n: string)
    requires ops != []
    ensures var last := |ops| - 1;
            var h := ops[..last];
            Asked(ops, e, k, n) <==>
              Asked(h, e, k, n) || (ops[last] == BindQueue(e, n, k) && e in After(h).exchanges && n in After(h).queues)
  {
    var last := |ops| - 1;
    var h := ops[..last];
    DeclaredIff(h, e, n);
    forall i | 0 <= i <= last ensures DeclaredBefore(ops, i, e, n) <==> DeclaredBefore(h, i, e, n) {
      SameBefore(ops, h, i, e, n);
    }
    assert DeclaredBefore(h, last, e, n) <==> e in After(h).exchanges && n in After(h).queues;
    if i :| 0 <= i < |h| && h[i] == BindQueue(e, n, k) && DeclaredBefore(h, i, e, n) {
      assert ops[i] == BindQueue(e, n, k);
    }
    if i :| 0 <= i < last && ops[i] == BindQueue(e, n, k) && DeclaredBefore(ops, i, e, n) {
      assert h[i] == BindQueue(e, n, k);
    }
  }

  /** A binding is in force iff some bind asked for exactly it after both of its ends were declared;
      binds against undeclared names leave no trace, and nothing ever removes a binding. */
  lemma {:induction false} BoundIff(ops: seq<Op>, e: string, k: string, n: string)
    ensures (e, k, n) in After(ops).bindings <==> Asked(ops, e, k, n)
  {
    if ops != [] {
      BoundIff(ops[..|ops| - 1], e, k, n);
      AskedStep(ops, e, k, n);
    }
  }

  lemma SameBefore(ops: seq<Op>, h: seq<Op>, i: nat, e: string, n: string)
    requires ops != [] && h == ops[..|ops| - 1] && i < |ops|
    ensures DeclaredBefore(ops, i, e, n) <==> DeclaredBefore(h, i, e, n)
  {
    forall a | 0 <= a < i ensures a < |h| && h[a] == ops[a] {
    }
  }

  // ---------------------------------------------------------------- queue contents, read off the history

  /** The settings of a queue are those of its first declaration; later ones change nothing. */
  lemma {:induction false} FirstDeclarationWins(ops: seq<Op>, n: string, i: nat)
    requires i < |ops| && Declares(ops[i], n) && forall j :: 0 <= j < i ==> !Declares(ops[j], n)
    ensures n in After(ops).queues
    ensures After(ops).queues[n].dlx == ops[i].dlx && After(ops).queues[n].dlxKey == ops[i].dlxKey
  {
    var last := |ops| - 1;
    var h := ops[..last];
    if i < last {
      FirstDeclarationWins(h, n, i);
    } else {
      DeclaredIff(h, "", n);
    }
  }

  /** What an operation publishes after the history `h`: itself, or a dead letter. */
  datatype Parcel = Parcel(exchange: string, key: string, body: Bytes) | NoParcel

  ghost function Sent(h: seq<Op>, op: Op): Parcel {
    match op
    case Publish(e, k, body) => Parcel(e, k, body)
    case Nack(x, m, false) =>
      if x in After(h).queues && After(h).queues[x].dlx != "" then
        var q := After(h).queues[x];
        Parcel(q.dlx, if q.dlxKey == "" then m.routingKey else q.dlxKey, m.body)
      else NoParcel
    case _ => NoParcel
  }

  /** The operation sends a copy to queue `n`. */
  ghost predicate Reaches(h: seq<Op>, op: Op, n: string) {
    Sent(h, op).Parcel? && Asked(h, Sent(h, op).exchange, Sent(h, op).key, n)
  }

  /** The operation hands a message back to queue `n`. */
  ghost predicate HandsBack(h: seq<Op>, op: Op, n: string) {
    op.Nack? && op.requeue && op.queue == n && n in After(h).queues
  }

  /** How many copies the queue was ever sent. */
  ghost function Tally(ops: seq<Op>, n: string): nat {
    if ops == [] then 0 else
    var h, op := ops[..|ops| - 1], ops[|ops| - 1];
    Tally(h, n) + if Reaches(h, op, n) then 1 else 0
  }

  /** The contents of a queue: copies arrive at the back, numbered in order of arrival, and messages handed back go
      to the front. */
  ghost function Line(ops: seq<Op>, n: string): seq<Message> {
    if ops == [] then [] else
    var h, op := ops[..|ops| - 1], ops[|ops| - 1];
    var x := Sent(h, op);
    var back := if HandsBack(h, op, n) then [op.m] else [];
    var copy := if Reaches(h, op, n) then [Message(Tally(h, n), TagOf(Tally(h, n)), x.body, x.exchange, x.key)] else [];
    back + Line(h, n) + copy
  }

  lemma Gains(p: Plain, op: Op, n: string, h: seq<Op>)
    requires p == After(h) && n in p.queues
    ensures n in Step(p, op).queues
    ensures Step(p, op).queues[n].minted == p.queues[n].minted + if Reaches(h, op, n) then 1 else 0
    ensures var x := Sent(h, op);
            var back := if HandsBack(h, op, n) then [op.m] else [];
            var copy := if Reaches(h, op, n)
                        then [Message(p.queues[n].minted, TagOf(p.queues[n].minted), x.body, x.exchange, x.key)] else [];
            Step(p, op).queues[n].messages == back + p.queues[n].messages + copy
  {
    var x := Sent(h, op);
    if x.Parcel? {
      BoundIff(h, x.exchange, x.key, n);
      BoundMeansDeclared(h, x.exchange, x.key, n);
    }
  }

  lemma {:induction false} BoundMeansDeclared(ops: seq<Op>, e: string, k: string, n: string)
    ensures (e, k, n) in After(ops).bindings ==> e in After(ops).exchanges && n in After(ops).queues
  {
    if ops != [] {
      BoundMeansDeclared(ops[..|ops| - 1], e, k, n);
    }
  }

  lemma {:induction false} Undeclared(ops: seq<Op>, n: string)
    requires n !in After(ops).queues
    ensures Line(ops, n) == [] && Tally(ops, n) == 0
  {
    if ops != [] {
      var h, op := ops[..|ops| - 1], ops[|ops| - 1];
      Undeclared(h, n);
      var x := Sent(h, op);
      if x.Parcel? {
        BoundIff(h, x.exchange, x.key, n);
        BoundMeansDeclared(h, x.exchange, x.key, n);
      }
    }
  }

  /** After any history every queue holds exactly the copies sent to it and the messages handed back to it. */
  lemma {:induction false} ContentsAfter(ops: seq<Op>, n: string)
    requires n in After(ops).queues
    ensures After(ops).queues[n].messages == Line(ops, n) && After(ops).queues[n].minted == Tally(ops, n)
  {
    var h, op := ops[..|ops| - 1], ops[|ops| - 1];
    if n in After(h).queues {
      ContentsAfter(h, n);
      Gains(After(h), op, n, h);
    } else {
      Undeclared(h, n);
    }
  }
}
