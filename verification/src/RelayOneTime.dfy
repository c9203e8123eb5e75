/** One-time material: KeyPackages leave the directory once and in order, and nonces are spent once per issue. */
module RelayOneTime {
  import opened Proto
  import opened RelayState
  import opened RelaySteps
  import opened RelayEffects

  function PublishedBy(c: Crypto, s: Relay, op: Op, w: Wallet): seq<Publication>
  {
    if op.OpPublishKeyPackage? && op.publication.wallet == w && Step(c, s, op).reply.Referenced? then
      [op.publication]
    else []
  }

  function TakenBy(c: Crypto, s: Relay, op: Op, w: Wallet): seq<Publication>
  {
    if op == OpTakeKeyPackage(w) && Step(c, s, op).reply.Taken? && Step(c, s, op).reply.package.Some? then
      [Step(c, s, op).reply.package.value]
    else []
  }

  function Published(c: Crypto, s: Relay, ops: seq<Op>, w: Wallet): seq<Publication>
  {
    if ops == [] then []
    else
      var before := ops[..|ops| - 1];
      Published(c, s, before, w) + PublishedBy(c, Exec(c, s, before), ops[|ops| - 1], w)
  }

  function AllTaken(c: Crypto, s: Relay, ops: seq<Op>, w: Wallet): seq<Publication>
  {
    if ops == [] then []
    else
      var before := ops[..|ops| - 1];
      AllTaken(c, s, before, w) + TakenBy(c, Exec(c, s, before), ops[|ops| - 1], w)
  }

  lemma DirectoryPublish(c: Crypto, s: Relay, op: Op, w: Wallet)
    requires op.OpPublishKeyPackage?
    ensures Queue(Step(c, s, op).state, w) == Queue(s, w) + PublishedBy(c, s, op, w)
    ensures PublishedBy(c, s, op, w) != [] ==> |Queue(s, w)| < MAX_KEYPACKAGES_PER_WALLET
  {
    hide RegisterGroup, RedeemInvite, Onboard, Offboard, SubmitAs;
  }

  lemma DirectoryTake(c: Crypto, s: Relay, op: Op, w: Wallet)
    requires op.OpTakeKeyPackage?
    ensures Queue(s, w) == TakenBy(c, s, op, w) + Queue(Step(c, s, op).state, w)
  {
    hide RegisterGroup, RedeemInvite, Onboard, Offboard, SubmitAs, PublishKeyPackage;
  }

  lemma OthersKeepDirectory(c: Crypto, s: Relay, op: Op)
    requires !op.OpPublishKeyPackage? && !op.OpTakeKeyPackage?
    ensures Step(c, s, op).state.keyPackages == s.keyPackages
  {
    hide Onboard, Offboard, SubmitAs, PublishKeyPackage;
    if op.OpOnboard? || op.OpOffboard? || op.OpSubmit? { OrderedFrame(c, s, op); }
  }

  lemma DirectoryStep(c: Crypto, s: Relay, op: Op, w: Wallet)
    ensures Queue(s, w) + PublishedBy(c, s, op, w) == TakenBy(c, s, op, w) + Queue(Step(c, s, op).state, w)
    ensures |Queue(s, w)| <= MAX_KEYPACKAGES_PER_WALLET
            ==> |Queue(Step(c, s, op).state, w)| <= MAX_KEYPACKAGES_PER_WALLET
  {
    hide Step;
    if op.OpPublishKeyPackage? {
      DirectoryPublish(c, s, op, w);
    } else if op.OpTakeKeyPackage? {
      DirectoryTake(c, s, op, w);
    } else {
      OthersKeepDirectory(c, s, op);
    }
  }

  /** The packages a wallet published are those taken followed by those queued, in order, and at most 64 wait. */
  lemma {:induction false} KeyPackagesAreOneTime(c: Crypto, s: Relay, ops: seq<Op>, w: Wallet)
    requires |Queue(s, w)| <= MAX_KEYPACKAGES_PER_WALLET
    ensures Queue(s, w) + Published(c, s, ops, w) == AllTaken(c, s, ops, w) + Queue(Exec(c, s, ops), w)
    ensures |Queue(Exec(c, s, ops), w)| <= MAX_KEYPACKAGES_PER_WALLET
  {
    hide Step, PublishedBy, TakenBy, Queue;
    if ops == [] {
      assert Queue(s, w) + [] == [] + Queue(s, w);
    } else {
      var before, op := ops[..|ops| - 1], ops[|ops| - 1];
      var t := Exec(c, s, before);
      KeyPackagesAreOneTime(c, s, before, w);
      DirectoryStep(c, t, op, w);
      calc {
        Queue(s, w) + Published(c, s, ops, w);
        (Queue(s, w) + Published(c, s, before, w)) + PublishedBy(c, t, op, w);
        AllTaken(c, s, before, w) + (Queue(t, w) + PublishedBy(c, t, op, w));
        AllTaken(c, s, before, w) + (TakenBy(c, t, op, w) + Queue(Exec(c, s, ops), w));
        AllTaken(c, s, ops, w) + Queue(Exec(c, s, ops), w);
      }
    }
  }

  // Nonces

  /** A login or a publication succeeded on the strength of nonce `n`. */
  predicate Uses(c: Crypto, s: Relay, op: Op, n: string)
  {
    || (op.OpAuthenticate? && op.message.nonce == n && Step(c, s, op).reply.LoggedIn?)
    || (op.OpPublishKeyPackage? && op.publication.nonce == n && Step(c, s, op).reply.Referenced?)
  }

  function UseCount(c: Crypto, s: Relay, ops: seq<Op>, n: string): nat
  {
    if ops == [] then 0
    else
      var before := ops[..|ops| - 1];
      UseCount(c, s, before, n) + if Uses(c, Exec(c, s, before), ops[|ops| - 1], n) then 1 else 0
  }

  function IssueCount(ops: seq<Op>, n: string): nat
  {
    if ops == [] then 0
    else
      var op := ops[|ops| - 1];
      IssueCount(ops[..|ops| - 1], n) + if op.OpChallenge? && op.nonce == n then 1 else 0
  }

  function LiveNonce(s: Relay, n: string): nat
  {
    if n in s.nonces then 1 else 0
  }

  lemma OthersKeepNonces(c: Crypto, s: Relay, op: Op)
    requires !op.OpChallenge? && !op.OpAuthenticate? && !op.OpPublishKeyPackage? && !op.OpRestart?
    ensures Step(c, s, op).state.nonces == s.nonces
  {
    hide Onboard, Offboard, SubmitAs, PublishKeyPackage, Authenticate;
    if op.OpOnboard? || op.OpOffboard? || op.OpSubmit? { OrderedFrame(c, s, op); }
  }

  lemma NonceOps(c: Crypto, s: Relay, op: Op, n: string)
    requires op.OpChallenge? || op.OpAuthenticate? || op.OpPublishKeyPackage? || op.OpRestart?
    ensures LiveNonce(Step(c, s, op).state, n) + (if Uses(c, s, op, n) then 1 else 0)
         <= LiveNonce(s, n) + (if op.OpChallenge? && op.nonce == n then 1 else 0)
  {
    hide RegisterGroup, RedeemInvite, Onboard, Offboard, SubmitAs;
  }

  /** Across logins and publications, the successes naming a nonce never outnumber the times it was issued. */
  lemma {:induction false} NoncesAreSingleUse(c: Crypto, s: Relay, ops: seq<Op>, n: string)
    ensures UseCount(c, s, ops, n) + LiveNonce(Exec(c, s, ops), n) <= LiveNonce(s, n) + IssueCount(ops, n)
  {
    hide Step;
    if ops != [] {
      var before, op := ops[..|ops| - 1], ops[|ops| - 1];
      var t := Exec(c, s, before);
      NoncesAreSingleUse(c, s, before, n);
      if op.OpChallenge? || op.OpAuthenticate? || op.OpPublishKeyPackage? || op.OpRestart? {
        NonceOps(c, t, op, n);
      } else {
        OthersKeepNonces(c, t, op);
      }
    }
  }
}
