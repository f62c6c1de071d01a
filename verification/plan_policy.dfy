/** The infrastructure plan policy of `live-plan-policy.py`, and what applying an accepted plan can do. */
module PlanPolicy {
  import opened Common

  /** JSON values. */
  datatype Json =
    | Null
    | Bool(b: bool)
    | Num(n: real)
    | Str(s: string)
    | Arr(elements: seq<Json>)
    | Obj(fields: map<string, Json>)

  /** Python's equality: booleans are numbers, in containers too. */
  function Plain(j: Json): Json {
    match j
    case Bool(b) => Num(if b then 1.0 else 0.0)
    case Arr(elements) => Arr(seq(|elements|, i requires 0 <= i < |elements| => Plain(elements[i])))
    case Obj(fields) => Obj(map k | k in fields :: Plain(fields[k]))
    case _ => j
  }

  predicate Same(a: Json, b: Json) {
    Plain(a) == Plain(b)
  }

  function Get(j: Json, key: string, default: Json): Json {
    if j.Obj? && key in j.fields then j.fields[key] else default
  }

  predicate Truthy(j: Json) {
    match j
    case Null => false
    case Bool(b) => b
    case Num(n) => n != 0.0
    case Str(s) => s != ""
    case Arr(elements) => elements != []
    case Obj(fields) => fields != map[]
  }

  // ---- unknown values ----

  predicate HasUnknown(j: Json) {
    match j
    case Obj(fields) => exists k | k in fields :: HasUnknown(fields[k])
    case Arr(elements) => exists i | 0 <= i < |elements| :: HasUnknown(elements[i])
    case _ => j != Bool(false)
  }

  datatype Move = Key(k: string) | Index(i: nat)

  /** `leaf` is what this path leads to, and it is not a container. */
  predicate LeafAt(j: Json, path: seq<Move>, leaf: Json)
    decreases path
  {
    if path == [] then j == leaf && !j.Obj? && !j.Arr?
    else
      match path[0]
      case Key(k) => j.Obj? && k in j.fields && LeafAt(j.fields[k], path[1..], leaf)
      case Index(i) => j.Arr? && i < |j.elements| && LeafAt(j.elements[i], path[1..], leaf)
  }

  lemma {:induction false} UnknownHasLeaf(j: Json) returns (path: seq<Move>, leaf: Json)
    requires HasUnknown(j)
    ensures LeafAt(j, path, leaf) && leaf != Bool(false)
    decreases j
  {
    match j {
      case Obj(fields) =>
        var k :| k in fields && HasUnknown(fields[k]);
        var more, l := UnknownHasLeaf(fields[k]);
        path, leaf := [Key(k)] + more, l;
        assert path[1..] == more;
      case Arr(elements) =>
        var i: nat :| i < |elements| && HasUnknown(elements[i]);
        var more, l := UnknownHasLeaf(elements[i]);
        path, leaf := [Index(i)] + more, l;
        assert path[1..] == more;
      case _ => path, leaf := [], j;
    }
  }

  lemma {:induction false} LeafIsUnknown(j: Json, path: seq<Move>, leaf: Json)
    requires LeafAt(j, path, leaf) && leaf != Bool(false)
    ensures HasUnknown(j)
    decreases path
  {
    if path != [] {
      match path[0] {
        case Key(k) => LeafIsUnknown(j.fields[k], path[1..], leaf);
        case Index(i) => LeafIsUnknown(j.elements[i], path[1..], leaf);
      }
    }
  }

  predicate UnknownLeaf(j: Json, path: seq<Move>, leaf: Json) {
    LeafAt(j, path, leaf) && leaf != Bool(false)
  }

  /** A tree counts as unknown exactly when some leaf of it is anything but `false`. */
  lemma HasUnknownIff(j: Json)
    ensures HasUnknown(j) <==> exists path, leaf :: UnknownLeaf(j, path, leaf)
  {
    if HasUnknown(j) {
      var path, leaf := UnknownHasLeaf(j);
      assert UnknownLeaf(j, path, leaf);
    }
    if path, leaf :| UnknownLeaf(j, path, leaf) {
      LeafIsUnknown(j, path, leaf);
    }
  }

  // ---- the policy ----

  const MACHINE := "fly_machine.live"

  const CONFIGURE_RESOURCES: set<string> := {
    MACHINE, "fly_app.live", "fly_volume.authority", "fly_ip.v4", "fly_ip.v6", "fly_cert.live",
    "fly_cert_validation.live", "cloudflare_pages_project.live", "cloudflare_pages_domain.live",
    "cloudflare_dns_record.live", "cloudflare_dns_record.relay", "cloudflare_dns_record.relay_acme",
    "cloudflare_r2_bucket.state", "cloudflare_r2_bucket_lock.state", "cloudflare_r2_bucket_lifecycle.state"
  }

  const LEGACY: set<string> := {
    "cloudflare_worker.live", "cloudflare_worker_version.live", "cloudflare_workers_deployment.live",
    "cloudflare_workers_route.live"
  }

  const COMPUTED: set<string> := {"id", "instance_id", "private_ip", "state"}

  datatype Mode = Release | Infrastructure | Configure

  datatype Actions = Idle | Create | Update | Delete | Replace

  function ParseActions(j: Json): Option<Actions> {
    if j == Arr([Str("no-op")]) || j == Arr([Str("read")]) then Some(Idle)
    else if j == Arr([Str("create")]) then Some(Create)
    else if j == Arr([Str("update")]) then Some(Update)
    else if j == Arr([Str("delete")]) then Some(Delete)
    else if j == Arr([Str("create"), Str("delete")]) || j == Arr([Str("delete"), Str("create")]) then Some(Replace)
    else None
  }

  /** The paths and volumes of the mount blocks. */
  function Mounts(machine: Json): Option<seq<(Json, Json)>> {
    var blocks := Get(machine, "mount", Arr([]));
    if !blocks.Arr? || exists i | 0 <= i < |blocks.elements| :: !blocks.elements[i].Obj? then None
    else Some(seq(|blocks.elements|, i requires 0 <= i < |blocks.elements| =>
      (Get(blocks.elements[i], "path", Null), Get(blocks.elements[i], "volume", Null))))
  }

  predicate SameMounts(a: seq<(Json, Json)>, b: seq<(Json, Json)>) {
    |a| == |b| && forall i | 0 <= i < |a| :: Same(a[i].0, b[i].0) && Same(a[i].1, b[i].1)
  }

  function Change(resource: Json): Json {
    Get(resource, "change", Obj(map[]))
  }

  function Before(resource: Json): Json {
    Get(Change(resource), "before", Null)
  }

  function After(resource: Json): Json {
    Get(Change(resource), "after", Null)
  }

  function Unknown(resource: Json): Json {
    Get(Change(resource), "after_unknown", Obj(map[]))
  }

  predicate MountsKept(resource: Json) {
    && Unknown(resource).Obj?
    && !HasUnknown(Get(Unknown(resource), "mount", Bool(false)))
    && Mounts(Before(resource)).Some? && Mounts(After(resource)).Some?
    && SameMounts(Mounts(Before(resource)).value, Mounts(After(resource)).value)
  }

  /** Fields other than the image and the computed ones, with the values Python compares. */
  function Settled(fields: map<string, Json>): map<string, Json> {
    map k | k in fields && k != "image" && k !in COMPUTED :: Plain(fields[k])
  }

  predicate ImageOnly(resource: Json) {
    && Before(resource).Obj? && After(resource).Obj?
    && Unknown(resource).Obj?
    && (forall k | k in Unknown(resource).fields && k !in COMPUTED :: !HasUnknown(Unknown(resource).fields[k]))
    && Settled(Before(resource).fields) == Settled(After(resource).fields)
  }

  /** The checks on one resource; a value of the wrong shape raises, and so rejects. */
  predicate Allowed(resource: Json, mode: Mode) {
    && resource.Obj? && Change(resource).Obj?
    && var address := Get(resource, "address", Null);
       var actions := ParseActions(Get(Change(resource), "actions", Null));
       var importing := Truthy(Get(Change(resource), "importing", Null));
    && address.Str? && actions.Some?
    && (importing ==> mode.Configure?) && !Truthy(Get(resource, "deposed", Null))
    && address.s !in LEGACY
    && (!actions.value.Idle? ==>
          && address.s in CONFIGURE_RESOURCES && !actions.value.Delete? && !actions.value.Replace?
          && (address.s == MACHINE && actions.value.Update? ==> MountsKept(resource))
          && (mode.Release? ==> address.s == MACHINE && actions.value.Update? && ImageOnly(resource)))
  }

  predicate Complete(plan: Json) {
    && plan.Obj? && Get(plan, "resource_changes", Arr([])).Arr?
    && !Truthy(Get(plan, "errored", Null)) && Get(plan, "complete", Null) != Bool(false)
    && !Truthy(Get(plan, "deferred_changes", Null))
  }

  function Resources(plan: Json): seq<Json>
    requires Complete(plan)
  {
    Get(plan, "resource_changes", Arr([])).elements
  }

  predicate AllAllowed(resources: seq<Json>, mode: Mode) {
    forall i | 0 <= i < |resources| :: Allowed(resources[i], mode)
  }

  predicate Accepted(plan: Json, mode: Mode) {
    Complete(plan) && AllAllowed(Resources(plan), mode)
  }

  method Validate(plan: Json, mode: Mode) returns (ok: bool)
    ensures ok <==> Accepted(plan, mode)
  {
    if !plan.Obj? || !Get(plan, "resource_changes", Arr([])).Arr? { return false; }
    if Truthy(Get(plan, "errored", Null)) || Get(plan, "complete", Null) == Bool(false) || Truthy(Get(plan, "deferred_changes", Null)) {
      return false;
    }
    var resources := Get(plan, "resource_changes", Arr([])).elements;
    for n := 0 to |resources|
      invariant forall i | 0 <= i < n :: Allowed(resources[i], mode)
    {
      var resource := resources[n];
      if !resource.Obj? || !Change(resource).Obj? { return false; }
      var change, address := Change(resource), Get(resource, "address", Null);
      var actions := ParseActions(Get(change, "actions", Null));
      if !address.Str? || actions.None? { return false; }
      var importing := Truthy(Get(change, "importing", Null));
      if (importing && !mode.Configure?) || Truthy(Get(resource, "deposed", Null)) { return false; }
      if address.s in LEGACY { return false; }
      if actions.value.Idle? { continue; }
      if address.s !in CONFIGURE_RESOURCES || actions.value.Delete? || actions.value.Replace? { return false; }
      if address.s == MACHINE && actions.value.Update? {
        var kept := MountsKept(resource);
        if !kept { return false; }
      }
      if !mode.Release? { continue; }
      if address.s != MACHINE || !actions.value.Update? || importing { return false; }
      var only := ImageOnly(resource);
      if !only { return false; }
    }
    ok := true;
  }

  /** Each mode accepts whatever the stricter ones do. */
  lemma ModesNest(plan: Json)
    ensures Accepted(plan, Release) ==> Accepted(plan, Infrastructure)
    ensures Accepted(plan, Infrastructure) ==> Accepted(plan, Configure)
  {
  }

  // ---- applying a plan ----

  type State = map<string, Json>

  /** What an apply may make of a resource planned as `after`: known values come out as planned. */
  predicate Realises(value: Json, resource: Json) {
    var after, unknown := After(resource), Unknown(resource);
    if !after.Obj? then value == after
    else
      && value.Obj?
      && forall k | k in value.fields.Keys + after.fields.Keys && !HasUnknown(Get(unknown, k, Bool(false))) ::
           k in value.fields && k in after.fields && value.fields[k] == after.fields[k]
  }

  /** One planned change carried out on the state it was planned for. */
  predicate Carried(state: State, resource: Json, next: State) {
    && resource.Obj? && Get(resource, "address", Null).Str?
    && ParseActions(Get(Change(resource), "actions", Null)).Some?
    && var address := Get(resource, "address", Null).s;
    match ParseActions(Get(Change(resource), "actions", Null)).value
    case Idle => next == state
    case Delete => next == state - {address}
    case Create => address !in state && address in next && next == state[address := next[address]] && Realises(next[address], resource)
    case Update =>
      && address in state && Before(resource) == state[address]
      && address in next && next == state[address := next[address]] && Realises(next[address], resource)
    case Replace => address in next && next == state[address := next[address]] && Realises(next[address], resource)
  }

  /** The states an apply goes through, from the first to the last change it gets to. */
  predicate Applies(states: seq<State>, resources: seq<Json>) {
    && 1 <= |states| <= |resources| + 1
    && forall i | 0 <= i < |states| - 1 :: Carried(states[i], resources[i], states[i + 1])
  }

  lemma AppliesStep(states: seq<State>, resources: seq<Json>, mode: Mode)
    requires Applies(states, resources) && AllAllowed(resources, mode) && |states| > 1
    ensures var n := |states| - 1;
            && Applies(states[..n], resources)
            && Allowed(resources[n - 1], mode) && Carried(states[n - 1], resources[n - 1], states[n])
  {
  }

  /** Every resource is still there, only known resources changed, and the machine's mounts are as before. */
  predicate Kept(state: State, next: State) {
    && state.Keys <= next.Keys
    && (forall a | a in next.Keys && a !in CONFIGURE_RESOURCES :: a in state && next[a] == state[a])
    && (MACHINE in state ==> MACHINE in next && MountsAgree(state[MACHINE], next[MACHINE]))
  }

  predicate MountsAgree(a: Json, b: Json) {
    || a == b
    || (Mounts(a).Some? && Mounts(b).Some? && SameMounts(Mounts(a).value, Mounts(b).value))
  }

  lemma CarriedKeeps(state: State, resource: Json, next: State, mode: Mode)
    requires Allowed(resource, mode) && Carried(state, resource, next)
    ensures Kept(state, next)
  {
  }

  lemma KeptTrans(a: State, b: State, c: State)
    requires Kept(a, b) && Kept(b, c)
    ensures Kept(a, c)
  {
  }

  lemma {:induction false} AllowedKeep(resources: seq<Json>, mode: Mode, states: seq<State>)
    requires AllAllowed(resources, mode) && Applies(states, resources)
    ensures Kept(states[0], states[|states| - 1])
    decreases |states|
  {
    var n := |states| - 1;
    if n > 0 {
      AppliesStep(states, resources, mode);
      AllowedKeep(resources, mode, states[..n]);
      CarriedKeeps(states[n - 1], resources[n - 1], states[n], mode);
      KeptTrans(states[0], states[n - 1], states[n]);
    }
  }

  /** However far the apply of an accepted plan gets, in any mode, no resource is removed, none outside the
      reviewed set is created or changed, and an existing machine keeps its mount list. */
  lemma AcceptedPlanKeeps(plan: Json, mode: Mode, states: seq<State>)
    requires Accepted(plan, mode) && Applies(states, Resources(plan))
    ensures Kept(states[0], states[|states| - 1])
  {
    AllowedKeep(Resources(plan), mode, states);
  }

  /** The same resources, all as before but the machine, and the machine as before but for its image and its
      computed fields. */
  predicate OnlyImage(state: State, next: State) {
    && state.Keys == next.Keys
    && (forall a | a in state && a != MACHINE :: next[a] == state[a])
    && (MACHINE in state && next[MACHINE] != state[MACHINE] ==>
          state[MACHINE].Obj? && next[MACHINE].Obj? && Settled(state[MACHINE].fields) == Settled(next[MACHINE].fields))
  }

  lemma SettledRealised(value: Json, resource: Json)
    requires Realises(value, resource) && ImageOnly(resource)
    ensures value.Obj? && Settled(value.fields) == Settled(After(resource).fields)
  {
  }

  lemma ReleaseCarriesImage(state: State, resource: Json, next: State)
    requires Allowed(resource, Release) && Carried(state, resource, next)
    ensures OnlyImage(state, next)
  {
    if ParseActions(Get(Change(resource), "actions", Null)).value.Update? {
      SettledRealised(next[MACHINE], resource);
    }
  }

  lemma OnlyImageTrans(a: State, b: State, c: State)
    requires OnlyImage(a, b) && OnlyImage(b, c)
    ensures OnlyImage(a, c)
  {
  }

  lemma {:induction false} ReleasesKeep(resources: seq<Json>, states: seq<State>)
    requires AllAllowed(resources, Release) && Applies(states, resources)
    ensures OnlyImage(states[0], states[|states| - 1])
    decreases |states|
  {
    var n := |states| - 1;
    if n > 0 {
      AppliesStep(states, resources, Release);
      ReleasesKeep(resources, states[..n]);
      ReleaseCarriesImage(states[n - 1], resources[n - 1], states[n]);
      OnlyImageTrans(states[0], states[n - 1], states[n]);
    }
  }

  /** However far the apply of a release plan gets, it has changed nothing but the machine's image and its
      computed fields. */
  lemma ReleaseChangesOnlyTheImage(plan: Json, states: seq<State>)
    requires Accepted(plan, Release) && Applies(states, Resources(plan))
    ensures OnlyImage(states[0], states[|states| - 1])
  {
    ReleasesKeep(Resources(plan), states);
  }
}
