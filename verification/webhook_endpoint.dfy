/** A webhook endpoint: optimistic versions and the current, previous and retired signing secrets. */
module WebhookEndpoint {
  import opened Basics
  import WebhookDelivery

  datatype Lifecycle = Current | Previous(overlapExpiresAt: int) | Retired

  datatype Secret = Secret(version: nat, lifecycle: Lifecycle)

  /** What findRotationContext read: the version first, the latest secret by a second statement. */
  datatype Context = Context(version: nat, latest: Option<nat>)

  datatype Endpoint = Endpoint(version: nat, active: bool, subscriptions: set<nat>, secrets: seq<Secret>, contexts: seq<Context>)

  function NewEndpoint(subscriptions: set<nat>): Endpoint {
    Endpoint(0, true, subscriptions, [Secret(1, Current)], [])
  }

  const OVERLAP: nat := 86400000

  /** ORDER BY secret_version DESC LIMIT 1 */
  function Latest(secrets: seq<Secret>): nat {
    if secrets == [] then 0 else
    var rest := Latest(secrets[..|secrets| - 1]);
    var last := secrets[|secrets| - 1].version;
    if last >= rest then last else rest
  }

  // ----- transactions -----

  datatype Reply = Changed | Unchanged | PreconditionFailed | NoSecret | NotExactlyOneCurrent | SecretVersionTaken

  function PatchTx(e: Endpoint, expected: nat, active: Option<bool>, subscriptions: Option<set<nat>>): (Endpoint, Reply) {
    if e.version != expected then (e, PreconditionFailed) else
    var a := if active.Some? then active.value else e.active;
    var s := if subscriptions.Some? then subscriptions.value else e.subscriptions;
    if a == e.active && s == e.subscriptions then (e, Unchanged)
    else (e.(active := a, subscriptions := s, version := e.version + 1), Changed)
  }

  function ReadVersion(e: Endpoint): Endpoint {
    e.(contexts := e.contexts + [Context(e.version, None)])
  }

  function ReadSecret(e: Endpoint, k: nat): Endpoint
    requires k < |e.contexts|
  {
    e.(contexts := e.contexts[k := e.contexts[k].(latest := Some(Latest(e.secrets)))])
  }

  function RetirePrevious(secrets: seq<Secret>): (r: seq<Secret>)
    ensures |r| == |secrets|
  {
    seq(|secrets|, i requires 0 <= i < |secrets| =>
      if secrets[i].lifecycle.Previous? then secrets[i].(lifecycle := Retired) else secrets[i])
  }

  function DemoteCurrent(secrets: seq<Secret>, overlapExpiresAt: int): (r: seq<Secret>)
    ensures |r| == |secrets|
  {
    seq(|secrets|, i requires 0 <= i < |secrets| =>
      if secrets[i].lifecycle.Current? then secrets[i].(lifecycle := Previous(overlapExpiresAt)) else secrets[i])
  }

  function CurrentCount(secrets: seq<Secret>): nat {
    if secrets == [] then 0 else
    var n := |secrets| - 1;
    CurrentCount(secrets[..n]) + (if secrets[n].lifecycle.Current? then 1 else 0)
  }

  /** The rotation transaction with a secret made from a context that may be stale by now. */
  function RotateTx(e: Endpoint, context: Context, expected: nat, rotatedAt: int): (Endpoint, Reply) {
    if context.version != expected then (e, PreconditionFailed)
    else if context.latest.None? then (e, NoSecret)
    else if e.version != expected then (e, PreconditionFailed)
    else
      var retired := RetirePrevious(e.secrets);
      if CurrentCount(retired) != 1 then (e, NotExactlyOneCurrent) else
      var version := context.latest.value + 1;
      if exists i | 0 <= i < |e.secrets| :: e.secrets[i].version == version then (e, SecretVersionTaken) else
      (e.(secrets := DemoteCurrent(retired, rotatedAt + OVERLAP) + [Secret(version, Current)], version := e.version + 1), Changed)
  }

  datatype Step =
    | Patch(expected: nat, active: Option<bool>, subscriptions: Option<set<nat>>)
    | BeginContext
    | FinishContext(context: nat)
    | Rotate(context: nat, expected: nat, rotatedAt: int)

  function Apply(e: Endpoint, step: Step): Endpoint {
    match step
    case Patch(expected, active, subscriptions) => PatchTx(e, expected, active, subscriptions).0
    case BeginContext => ReadVersion(e)
    case FinishContext(k) => if k < |e.contexts| then ReadSecret(e, k) else e
    case Rotate(k, expected, rotatedAt) =>
      if k < |e.contexts| then RotateTx(e, e.contexts[k], expected, rotatedAt).0 else e
  }

  function Run(e: Endpoint, steps: seq<Step>): Endpoint {
    if steps == [] then e else Apply(Run(e, steps[..|steps| - 1]), steps[|steps| - 1])
  }

  // ----- what every step keeps -----

  /** Secret versions are contiguous from 1; the highest is current, the one before it previous, all older ones retired. */
  ghost predicate SecretAt(secrets: seq<Secret>, i: int) {
    0 <= i < |secrets| ==>
      && secrets[i].version == i + 1
      && (secrets[i].lifecycle.Current? <==> i == |secrets| - 1)
      && (secrets[i].lifecycle.Previous? <==> i == |secrets| - 2)
  }

  /** A context that still names the current version names the current secret. */
  ghost predicate ContextOk(e: Endpoint, k: int) {
    0 <= k < |e.contexts| ==>
      && e.contexts[k].version <= e.version
      && (e.contexts[k].version == e.version && e.contexts[k].latest.Some? ==> e.contexts[k].latest == Some(|e.secrets|))
  }

  ghost predicate EndpointOk(e: Endpoint) {
    && e.secrets != [] && (forall i :: SecretAt(e.secrets, i)) && (forall k :: ContextOk(e, k))
  }

  lemma {:induction false} LatestIsLast(secrets: seq<Secret>, n: nat)
    requires n <= |secrets| && forall i | 0 <= i < n :: secrets[i].version == i + 1
    ensures Latest(secrets[..n]) == n
  {
    if n > 0 {
      LatestIsLast(secrets, n - 1);
      assert secrets[..n][..n - 1] == secrets[..n - 1];
    }
  }

  lemma {:induction false} NoCurrent(secrets: seq<Secret>, n: nat)
    requires n <= |secrets| && forall i | 0 <= i < n :: !secrets[i].lifecycle.Current?
    ensures CurrentCount(secrets[..n]) == 0
  {
    if n > 0 {
      NoCurrent(secrets, n - 1);
      assert secrets[..n][..n - 1] == secrets[..n - 1];
    }
  }

  lemma OneCurrent(e: Endpoint)
    requires EndpointOk(e)
    ensures CurrentCount(RetirePrevious(e.secrets)) == 1
  {
    var retired := RetirePrevious(e.secrets);
    var n := |retired| - 1;
    forall i | 0 <= i < n ensures !retired[i].lifecycle.Current? { assert SecretAt(e.secrets, i); }
    NoCurrent(retired, n);
    assert SecretAt(e.secrets, n);
  }

  /** A rotation whose context and expectation still match always commits, and with the next secret version. */
  lemma RotationCommits(e: Endpoint, k: nat, expected: nat, rotatedAt: int)
    requires EndpointOk(e) && k < |e.contexts|
    ensures RotateTx(e, e.contexts[k], expected, rotatedAt).1 == Changed <==>
              e.contexts[k].version == expected == e.version && e.contexts[k].latest.Some?
    ensures RotateTx(e, e.contexts[k], expected, rotatedAt).1 in {Changed, PreconditionFailed, NoSecret}
    ensures RotateTx(e, e.contexts[k], expected, rotatedAt).1 == Changed ==> e.contexts[k].latest == Some(|e.secrets|)
  {
    OneCurrent(e);
    assert ContextOk(e, k);
    forall i | 0 <= i < |e.secrets| ensures e.secrets[i].version == i + 1 { assert SecretAt(e.secrets, i); }
  }

  lemma RotateKeepsOk(e: Endpoint, k: nat, expected: nat, rotatedAt: int)
    requires EndpointOk(e) && k < |e.contexts|
    ensures EndpointOk(RotateTx(e, e.contexts[k], expected, rotatedAt).0)
  {
    RotationCommits(e, k, expected, rotatedAt);
    var (r, reply) := RotateTx(e, e.contexts[k], expected, rotatedAt);
    if reply == Changed {
      forall i ensures SecretAt(r.secrets, i) { assert SecretAt(e.secrets, i); }
      forall j ensures ContextOk(r, j) { assert ContextOk(e, j); }
    }
  }

  lemma ApplyKeepsOk(e: Endpoint, step: Step)
    requires EndpointOk(e)
    ensures EndpointOk(Apply(e, step))
  {
    var r := Apply(e, step);
    match step
    case Rotate(k, expected, rotatedAt) => if k < |e.contexts| { RotateKeepsOk(e, k, expected, rotatedAt); }
    case _ =>
      forall i | 0 <= i < |e.secrets| ensures e.secrets[i].version == i + 1 { assert SecretAt(e.secrets, i); }
      LatestIsLast(e.secrets, |e.secrets|);
      assert e.secrets[..|e.secrets|] == e.secrets;
      forall i ensures SecretAt(r.secrets, i) { assert SecretAt(e.secrets, i); }
      forall j ensures ContextOk(r, j) { assert ContextOk(e, j); }
  }

  /** Under any interleaving of rotations, patches and stale contexts an endpoint has exactly one current secret, with the
      highest version, at most one previous, and versions contiguous from 1. */
  lemma {:induction false} SecretsAlwaysOk(subscriptions: set<nat>, steps: seq<Step>)
    ensures EndpointOk(Run(NewEndpoint(subscriptions), steps))
    decreases |steps|
  {
    if steps != [] {
      SecretsAlwaysOk(subscriptions, steps[..|steps| - 1]);
      ApplyKeepsOk(Run(NewEndpoint(subscriptions), steps[..|steps| - 1]), steps[|steps| - 1]);
    } else {
      forall i ensures SecretAt(NewEndpoint(subscriptions).secrets, i) {}
    }
  }

  lemma {:induction false} VersionsGrow(e: Endpoint, steps: seq<Step>)
    ensures e.version <= Run(e, steps).version
    ensures Run(e, steps).version == e.version ==>
              Run(e, steps).secrets == e.secrets && Run(e, steps).active == e.active && Run(e, steps).subscriptions == e.subscriptions
    decreases |steps|
  {
    if steps != [] { VersionsGrow(e, steps[..|steps| - 1]); }
  }

  /** How many steps of a run changed the status, the subscriptions or the secrets. */
  ghost function Changes(e: Endpoint, steps: seq<Step>): nat {
    if steps == [] then 0 else
    var n := |steps| - 1;
    var a, b := Run(e, steps[..n]), Run(e, steps);
    Changes(e, steps[..n]) + if a.active == b.active && a.subscriptions == b.subscriptions && a.secrets == b.secrets then 0 else 1
  }

  /** In every reachable state the version is the number of changes so far. */
  lemma {:induction false} VersionCountsChanges(initial: set<nat>, steps: seq<Step>)
    ensures Run(NewEndpoint(initial), steps).version == Changes(NewEndpoint(initial), steps)
    decreases |steps|
  {
    if steps != [] {
      var e := Run(NewEndpoint(initial), steps[..|steps| - 1]);
      VersionCountsChanges(initial, steps[..|steps| - 1]);
      if steps[|steps| - 1].Rotate? && steps[|steps| - 1].context < |e.contexts| {
        var (k, expected, rotatedAt) := (steps[|steps| - 1].context, steps[|steps| - 1].expected, steps[|steps| - 1].rotatedAt);
        if RotateTx(e, e.contexts[k], expected, rotatedAt).1 == Changed {
          SecretsAlwaysOk(initial, steps[..|steps| - 1]);
          RotatedSecrets(e, k, expected, rotatedAt);
        }
      }
    }
  }

  lemma ThreeSteps(e: Endpoint, a: Step, b: Step, c: Step)
    ensures Run(e, [a, b, c]) == Apply(Apply(Apply(e, a), b), c)
  {
    assert [a, b, c][..2] == [a, b] && [a, b][..1] == [a] && [a][..0] == [];
    assert Run(e, []) == e;
    assert Run(e, [a]) == Apply(e, a);
    assert Run(e, [a, b]) == Apply(Apply(e, a), b);
  }

  /** From every reachable state a rotation can be made: with a context read now, it commits and the next secret is current. */
  lemma RotationIsPossible(initial: set<nat>, steps: seq<Step>, rotatedAt: int)
    ensures var e := Run(NewEndpoint(initial), steps);
            var s := Run(e, [BeginContext, FinishContext(|e.contexts|), Rotate(|e.contexts|, e.version, rotatedAt)]);
            && |s.secrets| == |e.secrets| + 1 && s.secrets[|e.secrets|] == Secret(|e.secrets| + 1, Current)
            && s.version == e.version + 1 && s.active == e.active && s.subscriptions == e.subscriptions
  {
    var e := Run(NewEndpoint(initial), steps);
    var begin, finish, rotate := BeginContext, FinishContext(|e.contexts|), Rotate(|e.contexts|, e.version, rotatedAt);
    SecretsAlwaysOk(initial, steps);
    ApplyKeepsOk(e, begin);
    ApplyKeepsOk(Apply(e, begin), finish);
    var ready := Apply(Apply(e, begin), finish);
    RotationCommits(ready, |e.contexts|, e.version, rotatedAt);
    RotatedSecrets(ready, |e.contexts|, e.version, rotatedAt);
    ThreeSteps(e, begin, finish, rotate);
  }

  /** Of all changes made for one expected version, whenever they run, at most one takes effect. */
  lemma OneChangePerVersion(e: Endpoint, first: Step, later: seq<Step>, expected: nat, active: Option<bool>,
                            subscriptions: Option<set<nat>>, context: Context, rotatedAt: int)
    requires e.version == expected && Apply(e, first).version > e.version
    ensures var s := Run(Apply(e, first), later);
            && PatchTx(s, expected, active, subscriptions) == (s, PreconditionFailed)
            && RotateTx(s, context, expected, rotatedAt).0 == s
  {
    VersionsGrow(Apply(e, first), later);
  }

  /** Over every run: a patch for another version than the endpoint's is refused; otherwise the given values, and no others,
      are written, under the next version exactly if one of them is new, and they stay until the next change. */
  lemma PatchDecides(initial: set<nat>, steps: seq<Step>, expected: nat, active: Option<bool>, subscriptions: Option<set<nat>>,
                     later: seq<Step>)
    ensures var e := Run(NewEndpoint(initial), steps); var (e', reply) := PatchTx(e, expected, active, subscriptions);
            && (e.version != expected ==> e' == e && reply == PreconditionFailed)
            && (e.version == expected ==>
                  && e'.active == (match active case None => e.active case Some(a) => a)
                  && e'.subscriptions == (match subscriptions case None => e.subscriptions case Some(x) => x)
                  && e'.secrets == e.secrets && e'.contexts == e.contexts
                  && (if e'.active == e.active && e'.subscriptions == e.subscriptions then reply == Unchanged && e'.version == e.version
                      else reply == Changed && e'.version == e.version + 1))
            && (Run(e', later).version == e'.version ==>
                  Run(e', later).active == e'.active && Run(e', later).subscriptions == e'.subscriptions)
  {
    VersionsGrow(PatchTx(Run(NewEndpoint(initial), steps), expected, active, subscriptions).0, later);
  }

  // ----- deliveries -----

  function FindLifecycle(secrets: seq<Secret>, current: bool): Option<Secret> {
    if secrets == [] then None else
    var last := secrets[|secrets| - 1];
    if (if current then last.lifecycle.Current? else last.lifecycle.Previous?) then Some(last)
    else FindLifecycle(secrets[..|secrets| - 1], current)
  }

  /** The context a worker loads: the current secret and the previous one, expired or not. */
  function LoadedView(e: Endpoint): WebhookDelivery.EndpointView {
    var current, previous := FindLifecycle(e.secrets, true), FindLifecycle(e.secrets, false);
    WebhookDelivery.EndpointView(e.active, if current.Some? then current.value.version else 0,
                                 if previous.Some? then Some(previous.value.version) else None)
  }

  /** What the attempt's transaction selects: the previous secret only within its overlap. */
  function SelectedView(e: Endpoint, now: int): WebhookDelivery.EndpointView {
    var loaded, previous := LoadedView(e), FindLifecycle(e.secrets, false);
    if previous.Some? && previous.value.lifecycle.Previous? && previous.value.lifecycle.overlapExpiresAt > now then loaded
    else loaded.(previous := None)
  }

  /** The selected versions are the two highest ones. */
  lemma ViewIsTopTwo(e: Endpoint)
    requires EndpointOk(e)
    ensures LoadedView(e) == WebhookDelivery.EndpointView(e.active, |e.secrets|, if |e.secrets| >= 2 then Some(|e.secrets| - 1) else None)
  {
    var n := |e.secrets|;
    assert SecretAt(e.secrets, n - 1) && SecretAt(e.secrets, n - 2);
    assert FindLifecycle(e.secrets, true) == Some(e.secrets[n - 1]);
    var rest := e.secrets[..n - 1];
    assert FindLifecycle(e.secrets, false) == FindLifecycle(rest, false);
    if n == 1 {
      assert rest == [];
    } else {
      assert rest[|rest| - 1] == e.secrets[n - 2];
      assert FindLifecycle(rest, false) == Some(e.secrets[n - 2]);
    }
  }

  lemma {:induction false} SecretsStay(e: Endpoint, steps: seq<Step>)
    requires forall i | 0 <= i < |steps| :: !steps[i].Rotate?
    ensures Run(e, steps).secrets == e.secrets
    decreases |steps|
  {
    if steps != [] { SecretsStay(e, steps[..|steps| - 1]); }
  }

  lemma RotatedSecrets(e: Endpoint, k: nat, expected: nat, rotatedAt: int)
    requires EndpointOk(e) && k < |e.contexts| && RotateTx(e, e.contexts[k], expected, rotatedAt).1 == Changed
    ensures var r, n := RotateTx(e, e.contexts[k], expected, rotatedAt).0, |e.secrets|;
            && |r.secrets| == n + 1 && r.active == e.active && r.subscriptions == e.subscriptions && r.version == e.version + 1
            && r.secrets[n - 1] == Secret(n, Previous(rotatedAt + 86400000)) && r.secrets[n] == Secret(n + 1, Current)
  {
    RotationCommits(e, k, expected, rotatedAt);
    assert SecretAt(e.secrets, |e.secrets| - 1);
  }

  /** What the two highest secrets show to deliveries. */
  lemma ViewsOf(e: Endpoint, until: int, now: int)
    requires EndpointOk(e) && |e.secrets| >= 2 && e.secrets[|e.secrets| - 2].lifecycle == Previous(until)
    ensures LoadedView(e) == WebhookDelivery.EndpointView(e.active, |e.secrets|, Some(|e.secrets| - 1))
    ensures SelectedView(e, now)
         == WebhookDelivery.EndpointView(e.active, |e.secrets|, if now < until then Some(|e.secrets| - 1) else None)
  {
    var n := |e.secrets|;
    ViewIsTopTwo(e);
    assert SecretAt(e.secrets, n - 1) && SecretAt(e.secrets, n - 2);
    var rest := e.secrets[..n - 1];
    assert rest[|rest| - 1] == e.secrets[n - 2];
    assert FindLifecycle(rest, false) == Some(e.secrets[n - 2]);
  }

  /** Over every run: a rotation makes the next version current, and for exactly 24 hours attempts are signed with the version
      before it as well, whatever else is changed until the next rotation. */
  lemma RotationOverlaps(initial: set<nat>, steps: seq<Step>, k: nat, expected: nat, rotatedAt: int, later: seq<Step>, now: int)
    requires var e := Run(NewEndpoint(initial), steps);
             k < |e.contexts| && RotateTx(e, e.contexts[k], expected, rotatedAt).1 == Changed
    requires forall i | 0 <= i < |later| :: !later[i].Rotate?
    ensures var e := Run(NewEndpoint(initial), steps); var n := |e.secrets|;
            var s := Run(RotateTx(e, e.contexts[k], expected, rotatedAt).0, later);
            && SelectedView(s, now).current == LoadedView(s).current == n + 1
            && LoadedView(s).previous == Some(n)
            && SelectedView(s, now).previous == if now < rotatedAt + 86400000 then Some(n) else None
  {
    var e := Run(NewEndpoint(initial), steps);
    var r := RotateTx(e, e.contexts[k], expected, rotatedAt).0;
    SecretsAlwaysOk(initial, steps);
    RotatedSecrets(e, k, expected, rotatedAt);
    RotateKeepsOk(e, k, expected, rotatedAt);
    EndpointStays(r, later);
    SecretsStay(r, later);
    ViewsOf(Run(r, later), rotatedAt + 86400000, now);
  }

  /** Whatever happens to the endpoint between load and start: a started attempt signs with the versions the endpoint had
      in the attempt's own transaction, so a rotation in between costs the claim but never signs with a retired secret. */
  lemma StartedSignsWithSelected(e: Endpoint, between: seq<Step>, d: WebhookDelivery.Delivery, g: WebhookDelivery.ClaimGrant,
                                 delay: Option<int>, now: int, later: int)
    requires EndpointOk(e)
    requires WebhookDelivery.StartTx(d, g, LoadedView(e), delay, SelectedView(Run(e, between), now), now, later).1.Started?
    ensures var s := Run(e, between);
            var attempt := WebhookDelivery.StartTx(d, g, LoadedView(e), delay, SelectedView(s, now), now, later).1.grant.active;
            && WebhookDelivery.ChooseSigning(LoadedView(e), attempt) == WebhookDelivery.Sign(|s.secrets|, SelectedView(s, now).previous)
            && |s.secrets| == |e.secrets|
  {
    EndpointStays(e, between);
    var s := Run(e, between);
    ViewIsTopTwo(e);
    ViewIsTopTwo(s);
    WebhookDelivery.StartedIsSignable(d, g, LoadedView(e), delay, SelectedView(s, now), now, later);
  }

  lemma {:induction false} EndpointStays(e: Endpoint, steps: seq<Step>)
    requires EndpointOk(e)
    ensures EndpointOk(Run(e, steps))
    decreases |steps|
  {
    if steps != [] {
      EndpointStays(e, steps[..|steps| - 1]);
      ApplyKeepsOk(Run(e, steps[..|steps| - 1]), steps[|steps| - 1]);
    }
  }

  // ----- the rows in place -----

  class EndpointStore {
    var version: nat
    var active: bool
    var subscriptions: set<nat>
    var secrets: seq<Secret>
    var contexts: seq<Context>

    constructor (initial: set<nat>)
      ensures Row() == NewEndpoint(initial)
    {
      version, active, subscriptions, secrets, contexts := 0, true, initial, [Secret(1, Current)], [];
    }

    function Row(): Endpoint
      reads this
    {
      Endpoint(version, active, subscriptions, secrets, contexts)
    }

    method Patch(expected: nat, status: Option<bool>, desired: Option<set<nat>>) returns (reply: Reply)
      modifies `version, `active, `subscriptions
      ensures (Row(), reply) == PatchTx(old(Row()), expected, status, desired)
    {
      if version != expected {
        return PreconditionFailed;
      }
      var desiredStatus := if status.Some? then status.value else active;
      var desiredSubscriptions := if desired.Some? then desired.value else subscriptions;
      if desiredStatus == active && desiredSubscriptions == subscriptions {
        return Unchanged;
      }
      active, subscriptions, version := desiredStatus, desiredSubscriptions, version + 1;
      reply := Changed;
    }

    method Rotate(context: Context, expected: nat, rotatedAt: int) returns (reply: Reply)
      modifies `secrets, `version
      ensures (Row(), reply) == RotateTx(old(Row()), context, expected, rotatedAt)
    {
      if context.version != expected {
        return PreconditionFailed;
      }
      if context.latest.None? {
        return NoSecret;
      }
      if version != expected {
        return PreconditionFailed;
      }
      var retired := RetirePrevious(secrets);
      if CurrentCount(retired) != 1 {
        return NotExactlyOneCurrent;
      }
      var next := context.latest.value + 1;
      if exists i | 0 <= i < |secrets| :: secrets[i].version == next {
        return SecretVersionTaken;
      }
      secrets := DemoteCurrent(retired, rotatedAt + OVERLAP) + [Secret(next, Current)];
      version := version + 1;
      reply := Changed;
    }
  }
}
