/** What becomes of a request under decisions and use, and its whole life from asking to use (plugin/approvals.py). */
module ApprovalOutcomes {
  import opened Text
  import opened Wrappers
  import opened Approvals

  // ---- asking ----

  predicate Letter(c: char) {
    var n := c as int;
    48 <= n <= 57 || 65 <= n <= 90 || 97 <= n <= 122
  }

  /** One to 96 letters, digits, dots, underscores and hyphens, no two dots in a row, no mark in front. */
  predicate PlainName(s: string) {
    && 1 <= |s| <= 96 && Letter(s[0])
    && (forall i :: 0 <= i < |s| ==> Letter(s[i]) || s[i] in {'.', '_', '-'})
    && (forall i :: 0 < i < |s| ==> !(s[i - 1] == '.' && s[i] == '.'))
  }

  /** A plain name, or one with a line break after it. */
  predicate NameOk(s: string) {
    PlainName(s) || (s != "" && s[|s| - 1] == '\n' && PlainName(s[..|s| - 1]))
  }

  predicate CommitName(s: string) {
    40 <= |s| && forall i :: 0 <= i < |s| ==> 48 <= s[i] as int <= 57 || 97 <= s[i] as int <= 102
  }

  predicate WellAsked(binding: Binding, head: Option<string>) {
    && NameOk(binding.run) && NameOk(binding.unit) && binding.action != "" && binding.session != ""
    && |binding.plan| == 64 && (head == None || CommitName(head.value))
  }

  lemma CoreIs(core: string)
    ensures PlainName(core) <==> IdCore(core)
  {
    forall i | 0 <= i < |core| ensures IsAlnum(core[i]) <==> Letter(core[i]) {}
  }

  lemma NameIs(s: string)
    ensures ValidId(s) <==> NameOk(s)
  {
    var core := if s != "" && s[|s| - 1] == '\n' then s[..|s| - 1] else s;
    CoreIs(core);
    assert ValidId(s) <==> PlainName(core);
    if core != s { assert !Letter(s[|s| - 1]) && s[|s| - 1] !in {'.', '_', '-'}; }
  }

  /** Asking stores a pending request that runs out after its time, if it is well formed, and else nothing. */
  lemma AskOutcome(b: Broker, id: Id, binding: Binding, head: Option<string>, ttl: real, now: real)
    ensures var asked := Request(binding, head, now + ttl, Pending, None, None, None);
            AddRequest(b, id, binding, head, ttl, now) ==
              if WellAsked(binding, head) then Broker(b.requests[id := asked], b.rejected) else b
  {
    NameIs(binding.run);
    NameIs(binding.unit);
    if head.Some? {
      var h := head.value;
      forall i | 0 <= i < |h| ensures IsHex(h[i]) <==> (48 <= h[i] as int <= 57 || 97 <= h[i] as int <= 102) {}
      assert IsSha(h) <==> CommitName(h);
    }
    hide NameOk, ValidId;
  }

  // ---- deciding and using ----

  /** The decision names this request with every bound field, and the head, if it names one. */
  predicate Names(d: Decision, id: Id, r: Request) {
    && d.request == Some(id) && d.claimed.Some?
    && d.claimed.value.run == r.binding.run && d.claimed.value.unit == r.binding.unit
    && d.claimed.value.action == r.binding.action && d.claimed.value.plan == r.binding.plan
    && d.claimed.value.session == r.binding.session
    && (d.head == None || d.head == Some(r.head))
  }

  /** It says yes or no, and who says so. */
  predicate Signed(d: Decision) {
    (d.verdict == "approved" || d.verdict == "rejected") && d.decidedBy.Some? && Strip(d.decidedBy.value) != ""
  }

  /** The request a decision decides, if it does: pending, in time, fully named. */
  predicate Decides(b: Broker, d: Decision, now: real, id: Id) {
    && id in b.requests && b.requests[id].status == Pending && now < b.requests[id].expires
    && Names(d, id, b.requests[id]) && Signed(d)
  }

  /** The status of a stored request after a decision was handled, in every case. */
  lemma DecisionOutcome(b: Broker, d: Decision, now: real, id: Id)
    requires id in b.requests
    ensures var r, b' := b.requests[id], Resolve(b, d, now);
            && id in b'.requests
            && (Decides(b, d, now, id) ==>
                  b'.requests[id] == r.(status := if d.verdict == "approved" then Approved else Rejected,
                                        resolvedAt := Some(now), decidedBy := d.decidedBy))
            && (!Decides(b, d, now, id) && r.status == Pending && r.expires <= now ==>
                  b'.requests[id] == r.(status := Expired))
            && (!Decides(b, d, now, id) && !(r.status == Pending && r.expires <= now) ==> b'.requests[id] == r)
  {
  }

  /** A decision is noted as rejected exactly when it decides nothing. */
  lemma RejectionOutcome(b: Broker, d: Decision, now: real)
    ensures Resolve(b, d, now).rejected ==
            if exists id :: Decides(b, d, now, id) then b.rejected else b.rejected + [d.request]
  {
    if d.request.Some? && d.request.value in b.requests {
      DecisionOutcome(b, d, now, d.request.value);
      assert DecisionOk(ExpireAll(b.requests, now), d, now) <==> Decides(b, d, now, d.request.value);
    }
  }

  predicate Fits(r: Request, binding: Binding, head: Option<string>, now: real) {
    && r.status == Approved && now < r.expires && r.head == head
    && r.binding.run == binding.run && r.binding.unit == binding.unit && r.binding.action == binding.action
    && r.binding.plan == binding.plan && r.binding.session == binding.session
  }

  /** A use takes effect exactly when the request is approved, in time and bound to just this. */
  lemma UseOutcome(b: Broker, id: Option<Id>, binding: Binding, head: Option<string>, now: real)
    ensures Consume(b, id, binding, head, now) ==
            if id.Some? && id.value != "" && id.value in b.requests && Fits(b.requests[id.value], binding, head, now)
            then
              var used := b.requests[id.value].(status := Consumed, consumedAt := Some(now));
              b.(requests := b.requests[id.value := used])
            else b
  {
  }

  /**
   * From asking to use: a well-formed request, approved at `t1` and used at
   * `t2` with what it was asked for, is used up exactly if both came before it
   * ran out; used again, it changes nothing.
   */
  lemma RequestLife(b: Broker, id: Id, binding: Binding, head: Option<string>, ttl: real, t0: real, who: string,
                    t1: real, t2: real, t3: real)
    requires id != "" && id !in b.requests && RequestOk(binding, head) && Strip(who) != "" && t0 <= t1 <= t2 <= t3
    ensures var asked := AddRequest(b, id, binding, head, ttl, t0);
            var d := Decision(Some(id), Some(binding), Some(head), "approved", Some(who));
            var decided := Resolve(asked, d, t1);
            var used := Consume(decided, Some(id), binding, head, t2);
            && id in decided.requests && id in used.requests
            && decided.requests[id].status == (if t1 < t0 + ttl then Approved else Expired)
            && (used.requests[id].status == Consumed <==> t2 < t0 + ttl)
            && (t2 < t0 + ttl ==> Consume(used, Some(id), binding, head, t3) == used)
  {
    var asked := AddRequest(b, id, binding, head, ttl, t0);
    var d := Decision(Some(id), Some(binding), Some(head), "approved", Some(who));
    var decided := Resolve(asked, d, t1);
    DecisionOutcome(asked, d, t1, id);
    UseOutcome(decided, Some(id), binding, head, t2);
    UseOutcome(Consume(decided, Some(id), binding, head, t2), Some(id), binding, head, t3);
  }

  lemma OneNameChar(c: char)
    requires IsAlnum(c) || c == '.' || c == '_' || c == '-'
    ensures c != '/' && c != '\\'
  {
  }

  /** An identifier is short and cannot walk up or down a path. */
  lemma IdIsOneName(s: string)
    requires ValidId(s)
    ensures 1 <= |s| <= 97 && '/' !in s && '\\' !in s && s[0] != '.'
    ensures forall i :: 1 <= i < |s| ==> !(s[i - 1] == '.' && s[i] == '.')
  {
    var core := if s[|s| - 1] == '\n' then s[..|s| - 1] else s;
    forall i | 0 <= i < |s| ensures s[i] != '/' && s[i] != '\\' {
      if i < |core| { OneNameChar(core[i]); } else { assert s[i] == '\n'; }
    }
    forall i | 1 <= i < |s| ensures !(s[i - 1] == '.' && s[i] == '.') {
      if i < |core| { assert core[i] == s[i] && core[i - 1] == s[i - 1]; }
    }
  }
}
