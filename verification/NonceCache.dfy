/** Signed requests and the nonce window that keeps a captured one from being accepted again. */
module NonceCache {
  import opened Contract

  /** Absent headers are empty strings. */
  datatype Request = Request(body: nat, timestamp: string, nonce: string, signature: string)

  /** The signature function with its secret, the reading of a timestamp, and the allowed clock skew. */
  datatype Signer = Signer(sign: (nat, string, string) -> string, readTime: string -> Option<int>, skew: int)

  /** Expiry by nonce. */
  type Window = map<string, int>

  function Retention(skew: int): int {
    if 2 * skew + 1 > 60 then 2 * skew + 1 else 60
  }

  function Abs(x: int): int {
    if x < 0 then -x else x
  }

  /** The request as such is in order: complete, in time, rightly signed, its nonce of a valid length. */
  predicate Genuine(signer: Signer, r: Request, now: int) {
    && 8 <= |r.nonce| <= 256 && r.timestamp != "" && r.signature != ""
    && signer.readTime(r.timestamp).Some?
    && Abs(now - signer.readTime(r.timestamp).value) <= signer.skew
    && r.signature == signer.sign(r.body, r.timestamp, r.nonce)
  }

  function Purged(w: Window, now: int): Window {
    map n | n in w && w[n] > now :: w[n]
  }

  function Verify(w: Window, signer: Signer, r: Request, now: int): (Window, bool) {
    if !(8 <= |r.nonce| <= 256) then (w, false)
    else
      var live := Purged(w, now);
      if !Genuine(signer, r, now) || r.nonce in live then (live, false)
      else (live[r.nonce := now + Retention(signer.skew)], true)
  }

  class NonceReplayCache {
    var expiresAt: Window
    const signer: Signer

    constructor (signer: Signer)
      ensures expiresAt == map[] && this.signer == signer
    {
      expiresAt := map[];
      this.signer := signer;
    }

    method Purge(now: int)
      modifies this
      ensures expiresAt == Purged(old(expiresAt), now)
    {
      var todo := expiresAt.Keys;
      var kept: Window := map[];
      while todo != {}
        invariant todo <= expiresAt.Keys && expiresAt == old(expiresAt)
        invariant kept == map n | n in expiresAt && n !in todo && expiresAt[n] > now :: expiresAt[n]
        decreases todo
      {
        var n :| n in todo;
        if expiresAt[n] > now { kept := kept[n := expiresAt[n]]; }
        todo := todo - {n};
      }
      expiresAt := kept;
    }

    method CheckSignature(r: Request, now: int) returns (accepted: bool)
      requires 8 <= |r.nonce| <= 256
      ensures accepted <==> Genuine(signer, r, now) && r.nonce !in expiresAt
    {
      if r.timestamp == "" || r.nonce == "" || r.signature == "" { return false; }
      var signedAt := signer.readTime(r.timestamp);
      if signedAt.None? { return false; }
      if Abs(now - signedAt.value) > signer.skew { return false; }
      if r.nonce in expiresAt { return false; }
      accepted := r.signature == signer.sign(r.body, r.timestamp, r.nonce);
    }

    method VerifyRequest(r: Request, now: int) returns (accepted: bool)
      modifies this
      ensures (expiresAt, accepted) == Verify(old(expiresAt), signer, r, now)
    {
      if !(8 <= |r.nonce| <= 256) { return false; }
      Purge(now);
      accepted := CheckSignature(r, now);
      if accepted {
        expiresAt := expiresAt[r.nonce := now + Retention(signer.skew)];
      }
    }
  }

  // ---- Sequences of calls ----

  datatype Call = Call(request: Request, now: int)

  function WindowAfter(signer: Signer, calls: seq<Call>): Window {
    if calls == [] then map[]
    else
      var last := calls[|calls| - 1];
      Verify(WindowAfter(signer, calls[..|calls| - 1]), signer, last.request, last.now).0
  }

  predicate Accepted(signer: Signer, calls: seq<Call>, i: nat)
    requires i < |calls|
  {
    Verify(WindowAfter(signer, calls[..i]), signer, calls[i].request, calls[i].now).1
  }

  predicate NeverBack(calls: seq<Call>) {
    forall i, j :: 0 <= i < j < |calls| ==> calls[i].now <= calls[j].now
  }

  /** Among the first `n` calls one with this nonce was accepted and is remembered beyond time `t`. */
  ghost predicate Remembered(signer: Signer, calls: seq<Call>, n: nat, nonce: string, t: int)
    requires n <= |calls|
  {
    exists k :: 0 <= k < n && Accepted(signer, calls, k) && calls[k].request.nonce == nonce
             && calls[k].now + Retention(signer.skew) > t
  }

  /** The window holds exactly the nonces accepted within the retention time. */
  lemma {:induction false} WindowIsExact(signer: Signer, calls: seq<Call>, n: nat, nonce: string, t: int)
    requires n <= |calls| && NeverBack(calls) && (n > 0 ==> calls[n - 1].now <= t)
    ensures var w := WindowAfter(signer, calls[..n]);
            nonce in w && w[nonce] > t <==> Remembered(signer, calls, n, nonce, t)
    decreases n
  {
    if n > 0 {
      var c := calls[n - 1];
      assert calls[..n][..n - 1] == calls[..n - 1];
      WindowIsExact(signer, calls, n - 1, nonce, t);
      assert Remembered(signer, calls, n, nonce, t) <==>
        || Remembered(signer, calls, n - 1, nonce, t)
        || (Accepted(signer, calls, n - 1) && c.request.nonce == nonce && c.now + Retention(signer.skew) > t);
    }
  }

  /** A call is accepted exactly when the request is in order and its nonce was not accepted within the
      retention time before. */
  lemma AcceptanceIsExact(signer: Signer, calls: seq<Call>, i: nat)
    requires i < |calls| && NeverBack(calls)
    ensures Accepted(signer, calls, i) <==>
      && Genuine(signer, calls[i].request, calls[i].now)
      && !Remembered(signer, calls, i, calls[i].request.nonce, calls[i].now)
  {
    WindowIsExact(signer, calls, i, calls[i].request.nonce, calls[i].now);
  }

  /** With a clock that never goes back, a signed request is accepted at most once: a copy that is still
      in time always finds its nonce remembered, because retention exceeds twice the skew. */
  lemma AcceptedAtMostOnce(signer: Signer, calls: seq<Call>, i: nat, j: nat)
    requires i < j < |calls| && NeverBack(calls)
    requires calls[i].request.nonce == calls[j].request.nonce && calls[i].request.timestamp == calls[j].request.timestamp
    ensures !(Accepted(signer, calls, i) && Accepted(signer, calls, j))
  {
    AcceptanceIsExact(signer, calls, i);
    AcceptanceIsExact(signer, calls, j);
    assert Accepted(signer, calls, i) && calls[i].now + Retention(signer.skew) > calls[j].now ==>
      Remembered(signer, calls, j, calls[j].request.nonce, calls[j].now);
  }

  /** If the clock may go back, one call in between is enough to have a request accepted twice. */
  lemma ClockGoingBackAllowsReplay(signer: Signer, r: Request, now: int, other: Request)
    requires Genuine(signer, r, now) && 8 <= |other.nonce| <= 256 && other.nonce != r.nonce
    ensures var calls := [Call(r, now), Call(other, now + Retention(signer.skew)), Call(r, now)];
            Accepted(signer, calls, 0) && Accepted(signer, calls, 2)
  {
    var calls := [Call(r, now), Call(other, now + Retention(signer.skew)), Call(r, now)];
    assert calls[..0] == [];
    assert calls[..1] == [calls[0]] && calls[..1][..0] == [];
    assert calls[..2][..1] == calls[..1];
    assert WindowAfter(signer, calls[..0]) == map[] && Purged(map[], now) == map[];
    var w := WindowAfter(signer, calls[..1]);
    assert w == map[r.nonce := now + Retention(signer.skew)];
    assert Purged(w, now + Retention(signer.skew)) == map[];
    assert r.nonce !in WindowAfter(signer, calls[..2]);
  }

  /** What one request needs, and what it leaves: a nonce of 8 to 256 characters that is not remembered beyond now, a
      time stamp no further from now than the skew, and the signature of exactly its body, time stamp and nonce.  An
      accepted nonce is remembered for a minute, or longer than twice the skew; a request of proper length drops what
      has expired, and nothing else is changed. */
  lemma OneRequest(w: Window, signer: Signer, r: Request, now: int, other: string)
    ensures var (w', accepted) := Verify(w, signer, r, now);
            && (accepted <==>
                  && 8 <= |r.nonce| <= 256 && !(r.nonce in w && w[r.nonce] > now) && r.timestamp != ""
                  && signer.readTime(r.timestamp).Some?
                  && now - signer.skew <= signer.readTime(r.timestamp).value <= now + signer.skew
                  && r.signature == signer.sign(r.body, r.timestamp, r.nonce) && r.signature != "")
            && (accepted ==> r.nonce in w' && w'[r.nonce] == if signer.skew <= 29 then now + 60 else now + 2 * signer.skew + 1)
            && (|r.nonce| < 8 || |r.nonce| > 256 ==> w' == w)
            && (8 <= |r.nonce| <= 256 && !(accepted && other == r.nonce) ==>
                  && (other in w' <==> other in w && w[other] > now)
                  && (other in w' ==> w'[other] == w[other]))
  {
  }
}
