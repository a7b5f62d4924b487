/** Approval requests: bound, single use, expiring (plugin/approvals.py). */
module Approvals {
  import opened Text
  import opened Wrappers

  type Id = string

  datatype Status = Pending | Approved | Rejected | Expired | Consumed

  /** The bound fields of a request. */
  datatype Binding = Binding(run: Id, unit: Id, action: string, plan: string, session: string)

  datatype Request = Request(binding: Binding, head: Option<string>, expires: real, status: Status,
                             resolvedAt: Option<real>, decidedBy: Option<string>, consumedAt: Option<real>)

  /**
   * A decision as read. `claimed` is absent when a bound field is missing,
   * `head` when the decision names no head.
   */
  datatype Decision = Decision(request: Option<Id>, claimed: Option<Binding>, head: Option<Option<string>>,
                               verdict: string, decidedBy: Option<string>)

  datatype Broker = Broker(requests: map<Id, Request>, rejected: seq<Option<Id>>)

  // ---- state changes ----

  function ExpireOne(r: Request, now: real): Request {
    if r.status == Pending && now >= r.expires then r.(status := Expired) else r
  }

  function ExpireAll(requests: map<Id, Request>, now: real): map<Id, Request> {
    map id | id in requests :: ExpireOne(requests[id], now)
  }

  predicate IsHex(c: char) { '0' <= c <= '9' || 'a' <= c <= 'f' }

  predicate IsSha(x: string) {
    |x| >= 40 && forall i :: 0 <= i < |x| ==> IsHex(x[i])
  }

  predicate IsAlnum(c: char) { 'A' <= c <= 'Z' || 'a' <= c <= 'z' || '0' <= c <= '9' }

  /** The identifier pattern; its end anchor also lets one final line break through. */
  predicate ValidId(s: string) {
    IdCore(if s != "" && s[|s| - 1] == '\n' then s[..|s| - 1] else s)
  }

  predicate IdCore(core: string) {
    && 1 <= |core| <= 96 && IsAlnum(core[0])
    && (forall i :: 0 <= i < |core| ==> IsAlnum(core[i]) || core[i] == '.' || core[i] == '_' || core[i] == '-')
    && (forall i :: 1 <= i < |core| ==> core[i] != '.' || core[i - 1] != '.')
  }

  predicate RequestOk(binding: Binding, head: Option<string>) {
    && ValidId(binding.run) && ValidId(binding.unit) && binding.action != "" && |binding.plan| == 64
    && binding.session != "" && (head.Some? ==> IsSha(head.value))
  }

  function AddRequest(b: Broker, id: Id, binding: Binding, head: Option<string>, ttl: real, now: real): Broker {
    if !RequestOk(binding, head) then b
    else b.(requests := b.requests[id := Request(binding, head, now + ttl, Pending, None, None, None)])
  }

  /** Every check a decision must pass against a state already expired as of `now`. */
  predicate DecisionOk(requests: map<Id, Request>, d: Decision, now: real) {
    && d.request.Some? && d.request.value in requests
    && OpenFor(requests[d.request.value], d, now)
    && (d.verdict == "approved" || d.verdict == "rejected")
    && d.decidedBy.Some? && Strip(d.decidedBy.value) != ""
  }

  /** A decision never sets the head; when it names one, it must be the bound one. */
  predicate OpenFor(r: Request, d: Decision, now: real) {
    && r.status == Pending && now < r.expires
    && d.claimed == Some(r.binding)
    && (d.head.Some? ==> d.head.value == r.head)
  }

  function Decided(r: Request, d: Decision, now: real): Request {
    r.(status := if d.verdict == "approved" then Approved else Rejected,
       resolvedAt := Some(now), decidedBy := d.decidedBy)
  }

  function Resolve(b: Broker, d: Decision, now: real): Broker {
    var expired := ExpireAll(b.requests, now);
    if DecisionOk(expired, d, now)
    then Broker(expired[d.request.value := Decided(expired[d.request.value], d, now)], b.rejected)
    else Broker(expired, b.rejected + [d.request])
  }

  predicate Usable(requests: map<Id, Request>, id: Option<Id>, binding: Binding, head: Option<string>, now: real) {
    && id.Some? && id.value != "" && id.value in requests
    && requests[id.value].status == Approved && now < requests[id.value].expires
    && requests[id.value].binding == binding && requests[id.value].head == head
  }

  function Consume(b: Broker, id: Option<Id>, binding: Binding, head: Option<string>, now: real): Broker {
    if Usable(b.requests, id, binding, head, now)
    then b.(requests := b.requests[id.value := b.requests[id.value].(status := Consumed, consumedAt := Some(now))])
    else b
  }

  // ---- what they keep ----

  /** A request only moves forward: pending, then decided or expired, and from approved to consumed. */
  predicate Forward(before: Status, after: Status) {
    || after == before
    || (before == Pending && (after == Approved || after == Rejected || after == Expired))
    || (before == Approved && after == Consumed)
  }

  /** No request is lost or rebound, and every status moves forward. */
  ghost predicate Evolves(before: map<Id, Request>, after: map<Id, Request>) {
    forall id :: id in before ==>
      && id in after && after[id].binding == before[id].binding && after[id].head == before[id].head
      && after[id].expires == before[id].expires && Forward(before[id].status, after[id].status)
  }

  /** Only pending requests expire; a decision leaves exactly one of them decided, and only if still open. */
  lemma ResolveEvolves(b: Broker, d: Decision, now: real)
    ensures Evolves(b.requests, Resolve(b, d, now).requests)
    ensures Resolve(b, d, now).requests.Keys == b.requests.Keys
    ensures forall id :: id in b.requests && b.requests[id].status != Pending ==>
                           Resolve(b, d, now).requests[id] == b.requests[id]
    ensures forall id :: id in b.requests && b.requests[id].status == Pending ==>
              var s := Resolve(b, d, now).requests[id].status;
              (s == Approved || s == Rejected) ==>
                d.request == Some(id) && d.claimed == Some(b.requests[id].binding) && now < b.requests[id].expires
                && (s == Approved <==> d.verdict == "approved")
  {
  }

  /** A request that was consumed had been approved, was unexpired and matched every bound field. */
  lemma ConsumeEvolves(b: Broker, id: Option<Id>, binding: Binding, head: Option<string>, now: real)
    ensures Evolves(b.requests, Consume(b, id, binding, head, now).requests)
    ensures forall x :: x in b.requests && Consume(b, id, binding, head, now).requests[x] != b.requests[x] ==>
              && id == Some(x) && b.requests[x].status == Approved && now < b.requests[x].expires
              && b.requests[x].binding == binding && b.requests[x].head == head
              && Consume(b, id, binding, head, now).requests[x].status == Consumed
    ensures !Usable(Consume(b, id, binding, head, now).requests, id, binding, head, now)
  {
  }

  // ---- the broker object ----

  class ApprovalBroker {
    var requests: map<Id, Request>
    var rejected: seq<Option<Id>>

    ghost function View(): Broker
      reads this
    {
      Broker(requests, rejected)
    }

    constructor ()
      ensures View() == Broker(map[], [])
    {
      requests, rejected := map[], [];
    }

    /** Walks over the stored requests and expires the overdue ones. */
    method Expire(now: real)
      modifies this`requests
      ensures requests == ExpireAll(old(requests), now)
    {
      var todo := requests.Keys;
      while todo != {}
        invariant todo <= requests.Keys && requests.Keys == old(requests).Keys
        invariant forall id :: id in requests ==>
                                 requests[id] == if id in todo then old(requests)[id]
                                                 else ExpireOne(old(requests)[id], now)
        decreases todo
      {
        var id :| id in todo;
        if requests[id].status == Pending && now >= requests[id].expires {
          requests := requests[id := requests[id].(status := Expired)];
        }
        todo := todo - {id};
      }
    }

    method AskFor(id: Id, binding: Binding, head: Option<string>, ttl: real, now: real) returns (ok: bool)
      modifies this
      ensures View() == AddRequest(old(View()), id, binding, head, ttl, now)
      ensures ok <==> RequestOk(binding, head)
    {
      if !RequestOk(binding, head) { return false; }
      ok := true;
      requests := requests[id := Request(binding, head, now + ttl, Pending, None, None, None)];
    }

    method ResolveDecision(d: Decision, now: real) returns (ok: bool)
      modifies this
      ensures View() == Resolve(old(View()), d, now)
      ensures ok <==> DecisionOk(ExpireAll(old(requests), now), d, now)
    {
      Expire(now);
      ok := DecisionOk(requests, d, now);
      if !ok {
        rejected := rejected + [d.request];
        return;
      }
      var id := d.request.value;
      var r := requests[id].(status := if d.verdict == "approved" then Approved else Rejected);
      r := r.(resolvedAt := Some(now), decidedBy := d.decidedBy);
      requests := requests[id := r];
    }

    method ConsumeRequest(id: Option<Id>, binding: Binding, head: Option<string>, now: real) returns (ok: bool)
      modifies this
      ensures View() == Consume(old(View()), id, binding, head, now)
      ensures ok <==> Usable(old(requests), id, binding, head, now)
    {
      ok := Usable(requests, id, binding, head, now);
      if ok {
        requests := requests[id.value := requests[id.value].(status := Consumed, consumedAt := Some(now))];
      }
    }
  }
}
