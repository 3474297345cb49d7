/** Sequences of requests, failures included: what they keep, where they lead, and that they can always be recovered
    from. */
module Sessions {
  import opened Config
  import opened Kernel
  import R = Reconciler
  import opened NetworkEffect
  import opened Invariants
  import opened Convergence
  import opened Incremental
  import opened Liveness
  import opened Gateway

  // A request whose networks have their addresses outside the bridge network.
  ghost predicate Proper(request: Request)
  {
    match request
    case Apply(c) => AllOutside(c)
    case ApplyPartial(p) => PartialOutside(p)
    case Shutdown => true
  }

  // A request whose networks listen on their keys.
  ghost predicate KeyedRequest(request: Request)
  {
    match request
    case Apply(c) => KeyedConfig(c)
    case ApplyPartial(p) => KeyedPartial(p)
    case Shutdown => true
  }

  lemma HandleKept(env: Env, s: Session, request: Request)
    requires Proper(request) && !request.Shutdown?
    ensures Kept(s.world.kernel, Handle(env, s, request).world.kernel)
  {
    match request
    case Apply(c) => ApplyKept(env, s.world, c);
    case ApplyPartial(p) => PartialKept(env, s.world, s.stored, p);
  }

  /** Any sequence of requests, whatever fails, keeps the system sane and its veth pairs whole. */
  lemma {:induction false} ServedKept(env: Env, s: Session, requests: seq<Request>)
    requires forall i | 0 <= i < |requests| :: Proper(requests[i])
    ensures Kept(s.world.kernel, Served(env, s, requests).world.kernel)
    decreases |requests|
  {
    if requests != [] && !requests[0].Shutdown? {
      assert Proper(requests[0]);
      HandleKept(env, s, requests[0]);
      ServedKept(env, Handle(env, s, requests[0]), requests[1..]);
    }
  }

  // The system carries what is stored, and everything is in place.
  ghost predicate InStep(env: Env, s: Session)
  {
    Converged(env, s.stored, s.world.kernel) && KeyedConfig(s.stored) && Sane(s.world.kernel)
  }

  lemma AppliedInStep(env: Env, s: Session, c: Networks)
    requires FaithfulDump(env) && ListsSets(env) && Sane(s.world.kernel) && AllOutside(c) && KeyedConfig(c)
    requires R.Apply(env, s.world, c).Done?
    ensures InStep(env, Handle(env, s, Request.Apply(c)))
  {
    SaneMeans(s.world.kernel);
    ApplyConverges(env, s.world, c);
    ApplyKept(env, s.world, c);
  }

  lemma UpdatedInStep(env: Env, s: Session, p: Partial)
    requires FaithfulDump(env) && ListsSets(env) && InStep(env, s) && PartialOutside(p) && KeyedPartial(p)
    requires R.ApplyPartial(env, s.world, s.stored, p).run.Done?
    ensures InStep(env, Handle(env, s, Request.ApplyPartial(p)))
  {
    SaneMeans(s.world.kernel);
    PartialConverges(env, s.world, s.stored, p);
    PartialKept(env, s.world, s.stored, p);
  }

  /** While every answer is a success, the system carries the stored configuration after each request. */
  lemma {:induction false} SessionConverges(env: Env, s: Session, requests: seq<Request>)
    requires FaithfulDump(env) && ListsSets(env)
    requires forall i | 0 <= i < |requests| :: Proper(requests[i]) && KeyedRequest(requests[i])
    requires Sane(s.world.kernel) && (InStep(env, s) || (requests != [] && requests[0].Apply?))
    ensures false !in Later(env, s, requests) ==> InStep(env, Served(env, s, requests))
    decreases |requests|
  {
    if requests != [] && !requests[0].Shutdown? && false !in Later(env, s, requests) {
      var next, rest := Handle(env, s, requests[0]), requests[1..];
      LaterFront(env, s, requests);
      NoneFailed(next.responses[|s.responses|], Later(env, next, rest));
      assert Proper(requests[0]) && KeyedRequest(requests[0]);
      match requests[0] {
        case Apply(c) => AppliedInStep(env, s, c);
        case ApplyPartial(p) => UpdatedInStep(env, s, p);
      }
      SessionConverges(env, next, rest);
    }
  }

  /** After any sequence of requests, whatever failed on the way, a whole update in which no call fails is answered
      by success and leaves the system carrying its configuration, if the system was sane and whole to begin with. */
  lemma AlwaysRecovers(env: Env, s: Session, requests: seq<Request>, env': Env, c: Networks)
    requires Sane(s.world.kernel) && Whole(s.world.kernel)
    requires forall i | 0 <= i < |requests| :: Proper(requests[i])
    requires Faultless(env') && FaithfulDump(env') && ListsSets(env') && ListsOnce(env')
    ensures var before := Served(env, s, requests);
      var after := Handle(env', before, Request.Apply(c));
      && after.responses == before.responses + [true]
      && after.stored == c && Converged(env', c, after.world.kernel)
  {
    var w := Served(env, s, requests).world;
    ServedKept(env, s, requests);
    SaneMeans(w.kernel);
    ApplyProceeds(env', w, c);
    ApplyConverges(env', w, c);
  }

  /** So is a partial update whose networks listen on their keys; the override is stored then. */
  lemma UpdatesRecover(env: Env, s: Session, requests: seq<Request>, env': Env, p: Partial)
    requires Sane(s.world.kernel) && Whole(s.world.kernel)
    requires forall i | 0 <= i < |requests| :: Proper(requests[i])
    requires Faultless(env') && KeyedPartial(p)
    ensures var before := Served(env, s, requests);
      var after := Handle(env', before, Request.ApplyPartial(p));
      && after.responses == before.responses + [true]
      && after.stored == Override(before.stored, p)
  {
    var before := Served(env, s, requests);
    ServedKept(env, s, requests);
    PartialProceeds(env', before.world, before.stored, p);
    PartialStored(env', before.world, before.stored, p);
  }

  /** A system that has no links and namespaces yet is sane and whole. */
  lemma FreshIsSane(k: Kernel)
    requires k.root == map[] && k.spaces == map[]
    ensures Sane(k) && Whole(k)
  {
  }
}
