/** The routing table's state, and what every router operation computes from it. */
module Routing {
  import opened Options
  import opened Backoff
  import opened ModelCircuit
  import opened Ordering

  type Name = string

  datatype Tier = Tier(models: seq<Name>)
  datatype Profile = Profile(tiers: seq<Tier>, latencyOptimized: bool, allowLowerTier: bool)

  /** `groups[i]` is the quota group of the key at position i; `hash` stands for the name hash. */
  datatype Config = Config(
    groups: seq<Name>,
    profiles: map<Name, Profile>,
    hash: Name -> int,
    thresholds: Thresholds,
    cooldownInitial: nat, cooldownMax: nat, maxModelCooldown: nat,
    retryAfterMax: nat, softAffinity: nat, maxAffinityEntries: nat)

  datatype RouteSpec = ProfileSpec(name: Name) | LiteralSpec(model: Name)
  datatype RouteId = RouteId(model: int, group: int)
  datatype Identity = Identity(model: int, group: int, key: nat)
  datatype RouteTarget = RouteTarget(model: Name, group: Name, key: nat, tier: nat)

  datatype KeyState = KeyState(coolingUntil: Option<nat>, unusable: bool, streak: nat, latencyCost: nat, inflight: nat)
  datatype RouteState = RouteState(coolingUntil: Option<nat>, disabledUntil: Option<nat>)
  datatype AffinityEntry = AffinityEntry(route: RouteId, expires: nat)

  const FRESH_KEY := KeyState(None, false, 0, 0, 0)
  const FRESH_ROUTE := RouteState(None, None)
  const U32_MAX: nat := 0xFFFF_FFFF
  const NO_SESSION := "sess_none"

  datatype Table = Table(
    keys: seq<KeyState>,
    routes: map<RouteId, RouteState>,
    models: map<Name, ModelEntry>,
    groups: map<Name, Option<nat>>,
    affinity: map<string, AffinityEntry>,
    rotation: nat)

  function FreshTable(cfg: Config): Table {
    Table(seq(|cfg.groups|, _ => FRESH_KEY), map[], map[], map[], map[], 0)
  }

  function IdOf(cfg: Config, model: Name, group: Name): RouteId {
    RouteId(cfg.hash(model), cfg.hash(group))
  }

  function TargetId(cfg: Config, t: RouteTarget): RouteId {
    IdOf(cfg, t.model, t.group)
  }

  function IdentityOf(cfg: Config, t: RouteTarget): Identity {
    Identity(cfg.hash(t.model), cfg.hash(t.group), t.key)
  }

  function RouteOf(s: Table, id: RouteId): RouteState {
    if id in s.routes then s.routes[id] else FRESH_ROUTE
  }

  function ModelOf(s: Table, model: Name): ModelEntry {
    if model in s.models then s.models[model] else FRESH_MODEL
  }

  function GroupOf(s: Table, group: Name): Option<nat> {
    if group in s.groups then s.groups[group] else None
  }

  // --- candidates -----------------------------------------------------------

  datatype Candidate = Candidate(model: Name, group: Name, a: nat, b: Option<nat>, ordinal: nat)

  /** The quota groups in the order of their first key. */
  function GroupNames(groups: seq<Name>): (names: seq<Name>)
    ensures forall g :: g in names <==> g in groups
    ensures forall i, j :: 0 <= i < j < |names| ==> names[i] != names[j]
  {
    if groups == [] then []
    else
      var n := |groups| - 1;
      var before := GroupNames(groups[..n]);
      assert groups == groups[..n] + [groups[n]];
      if groups[n] in before then before else before + [groups[n]]
  }

  /** The key positions of one group, ascending. */
  function Members(groups: seq<Name>, group: Name): (members: seq<nat>)
    ensures forall i :: i in members <==> 0 <= i < |groups| && groups[i] == group
    ensures forall i, j :: 0 <= i < j < |members| ==> members[i] < members[j]
    ensures group in groups ==> members != []
  {
    if groups == [] then []
    else
      var n := |groups| - 1;
      var before := Members(groups[..n], group);
      assert groups == groups[..n] + [groups[n]];
      assert forall k :: 0 <= k < |before| ==> before[k] in before;
      if groups[n] == group then before + [n] else before
  }

  /** Two keys of the group, starting at the rotation. */
  function CandidateFor(cfg: Config, rotation: nat, model: Name, group: Name, ordinal: nat): (c: Candidate)
    requires group in cfg.groups
    ensures forall k :: k in Sampled(c) ==> k < |cfg.groups| && cfg.groups[k] == group
  {
    var members := Members(cfg.groups, group);
    var a, b := members[rotation % |members|], members[(rotation + 1) % |members|];
    assert a in members && b in members;
    Candidate(model, group, a, if |members| > 1 then Some(b) else None, ordinal)
  }

  function CandidatesAt(cfg: Config, rotation: nat, model: Name, ordinal: nat): seq<Candidate> {
    var names := GroupNames(cfg.groups);
    seq(|names|, k requires 0 <= k < |names| =>
      assert names[k] in names; CandidateFor(cfg, rotation, model, names[k], ordinal))
  }

  function TierCandidates(cfg: Config, rotation: nat, models: seq<Name>): seq<Candidate> {
    if models == [] then []
    else
      var n := |models| - 1;
      TierCandidates(cfg, rotation, models[..n]) + CandidatesAt(cfg, rotation, models[n], n)
  }

  /** The keys the candidate may be dialed through. */
  function Sampled(c: Candidate): seq<nat> {
    if c.b.Some? && c.b.value != c.a then [c.a, c.b.value] else [c.a]
  }

  function CandidateId(cfg: Config, c: Candidate): RouteId {
    IdOf(cfg, c.model, c.group)
  }

  // --- lazy expiry ------------------------------------------------------------

  /** A deadline that has passed counts as absent. */
  function Live(deadline: Option<nat>, now: nat): Option<nat> {
    if deadline.Some? && deadline.value <= now then None else deadline
  }

  function LiveKey(k: KeyState, now: nat): KeyState {
    k.(coolingUntil := Live(k.coolingUntil, now))
  }

  function LiveRoute(r: RouteState, now: nat): RouteState {
    RouteState(Live(r.coolingUntil, now), Live(r.disabledUntil, now))
  }

  function TouchModel(s: Table, model: Name, now: nat): Table {
    s.(models := s.models[model := View(ModelOf(s, model), now)])
  }

  function TouchRoute(s: Table, id: RouteId, now: nat): Table {
    s.(routes := s.routes[id := LiveRoute(RouteOf(s, id), now)])
  }

  function TouchGroup(s: Table, group: Name, now: nat): Table {
    s.(groups := s.groups[group := Live(GroupOf(s, group), now)])
  }

  function TouchKey(s: Table, i: nat, now: nat): Table {
    if i < |s.keys| then s.(keys := s.keys[i := LiveKey(s.keys[i], now)]) else s
  }

  predicate KeyReady(s: Table, i: nat, now: nat) {
    i < |s.keys| && !s.keys[i].unusable && Live(s.keys[i].coolingUntil, now).None?
  }

  function KeyCooling(s: Table, i: nat, now: nat): Option<nat> {
    if i < |s.keys| then
      match Live(s.keys[i].coolingUntil, now)
      case Some(until) => Some(until - now)
      case None => None
    else None
  }

  predicate KeyUnusable(s: Table, i: nat) {
    i < |s.keys| && s.keys[i].unusable
  }

  /** The second sampled key is consulted only when the first is not ready. */
  function TouchSampled(s: Table, c: Candidate, now: nat): Table {
    var first := TouchKey(s, c.a, now);
    if KeyReady(s, c.a, now) || |Sampled(c)| == 1 then first else TouchKey(first, Sampled(c)[1], now)
  }

  predicate AnyKeyReady(s: Table, c: Candidate, now: nat) {
    exists i :: i in Sampled(c) && KeyReady(s, i, now)
  }

  // --- dialability ------------------------------------------------------------

  datatype GateReason =
    | ModelOpen | ModelDisabled | RouteDisabled | RouteCooling | QuotaGroupCooling | KeyCoolingGate | KeyUnusableGate
  datatype Dialability = Ready | Cooling(wait: nat) | Blocked(reason: GateReason)

  /** A dialability together with the known wait, if there is one. */
  datatype Verdict = Verdict(dial: Dialability, wait: Option<nat>)

  function Remaining(deadline: Option<nat>, now: nat): Option<nat> {
    match Live(deadline, now)
    case None => None
    case Some(until) => Some(until - now)
  }

  /** The shortest cooldown among the sampled keys that are cooling. */
  function KeyWait(s: Table, c: Candidate, now: nat): Option<nat> {
    var first := KeyCooling(s, c.a, now);
    if |Sampled(c)| == 1 then first
    else
      match KeyCooling(s, Sampled(c)[1], now)
      case None => first
      case Some(w) => Sooner(first, w)
  }

  function KeyVerdict(s: Table, c: Candidate, now: nat): Verdict {
    if AnyKeyReady(s, c, now) then Verdict(Ready, if KeyReady(s, c.a, now) then None else KeyCooling(s, c.a, now))
    else
      match KeyWait(s, c, now)
      case Some(w) => Verdict(Cooling(w), Some(w))
      case None =>
        if forall i :: i in Sampled(c) ==> KeyUnusable(s, i) then Verdict(Blocked(KeyUnusableGate), None)
        else Verdict(Blocked(KeyCoolingGate), None)
  }

  /** Whether a candidate may be dialed at `now`, gate by gate. */
  function Judge(cfg: Config, s: Table, c: Candidate, now: nat): Verdict {
    var m := View(ModelOf(s, c.model), now);
    if m.disabled then Verdict(Blocked(ModelDisabled), None)
    else if m.state.Open? && m.openUntil.Some? then Verdict(Blocked(ModelOpen), Remaining(m.openUntil, now))
    else
      var r := LiveRoute(RouteOf(s, CandidateId(cfg, c)), now);
      if r.disabledUntil.Some? then Verdict(Blocked(RouteDisabled), None)
      else if Live(GroupOf(s, c.group), now).Some? then
        Verdict(Blocked(QuotaGroupCooling), Remaining(GroupOf(s, c.group), now))
      else if r.coolingUntil.Some? && !(m.state.HalfOpen? && AnyKeyReady(s, c, now)) then
        Verdict(Blocked(RouteCooling), Remaining(r.coolingUntil, now))
      else if m.state.HalfOpen? && m.probeInFlight then Verdict(Blocked(ModelOpen), None)
      else KeyVerdict(s, c, now)
  }

  /** The entries a dialability check brings up to date, in the order it reaches them. */
  function AfterDial(cfg: Config, s: Table, c: Candidate, now: nat): Table {
    var s1 := TouchModel(s, c.model, now);
    var m := View(ModelOf(s, c.model), now);
    if m.disabled || (m.state.Open? && m.openUntil.Some?) then s1
    else
      var s2 := TouchRoute(s1, CandidateId(cfg, c), now);
      var r := LiveRoute(RouteOf(s, CandidateId(cfg, c)), now);
      if r.disabledUntil.Some? then s2
      else
        var s3 := TouchGroup(s2, c.group, now);
        if Live(GroupOf(s, c.group), now).Some? then s3
        else if r.coolingUntil.None? && m.state.HalfOpen? && m.probeInFlight then s3
        else TouchSampled(s3, c, now)
  }

  /** The table after checking these candidates in order, the last one last. */
  function DialAll(cfg: Config, s: Table, cs: seq<Candidate>, now: nat): Table {
    if cs == [] then s else AfterDial(cfg, DialAll(cfg, s, cs[..|cs| - 1], now), cs[|cs| - 1], now)
  }

  // --- planning ---------------------------------------------------------------

  datatype Scored = Scored(candidate: Candidate, score: nat)
  datatype PlanContext = PlanContext(now: nat, affinity: Option<RouteId>, latencyOptimized: bool,
                                     skipped: set<Identity>)
  datatype Scan = Scan(table: Table, available: seq<Scored>, wait: Option<nat>, hardBlocked: bool,
                       gate: Option<GateReason>)

  datatype PlanResult =
    | Planned(target: RouteTarget, steppedDown: nat, gate: Option<GateReason>, nextAlternative: Option<nat>)
    | Unavailable(wait: Option<nat>)

  function KeyCost(s: Table, i: nat, latencyOptimized: bool): nat {
    if i < |s.keys| then
      s.keys[i].inflight * 1_000_000 + s.keys[i].streak * 100_000
      + (if latencyOptimized then s.keys[i].latencyCost else 0)
    else 0
  }

  /** Load and recent failures of the sampled keys; affinity lowers it by one at most. */
  function Score(cfg: Config, s: Table, c: Candidate, affinity: Option<RouteId>, latencyOptimized: bool): nat {
    var cost := KeyCost(s, c.a, latencyOptimized)
              + (if |Sampled(c)| == 1 then 0 else KeyCost(s, Sampled(c)[1], latencyOptimized));
    if affinity == Some(CandidateId(cfg, c)) then Max(cost - 1, 0) else cost
  }

  function RankAt(cfg: Config, scored: seq<Scored>, affinity: Option<RouteId>, rotation: nat, p: nat): Rank
    requires p < |scored|
  {
    Rank(affinity != Some(CandidateId(cfg, scored[p].candidate)), scored[p].score,
         scored[p].candidate.ordinal, (p + rotation) % |scored|)
  }

  function RankAll(cfg: Config, scored: seq<Scored>, affinity: Option<RouteId>, rotation: nat): seq<Ranked<Scored>> {
    seq(|scored|, p requires 0 <= p < |scored| => Ranked(RankAt(cfg, scored, affinity, rotation, p), scored[p]))
  }

  function Order(cfg: Config, scored: seq<Scored>, affinity: Option<RouteId>, rotation: nat): (r: seq<Scored>)
    ensures |r| == |scored|
  {
    Items(SortByRank(RankAll(cfg, scored, affinity, rotation)))
  }

  function CandidateIdentity(cfg: Config, c: Candidate, key: nat): Identity {
    Identity(cfg.hash(c.model), cfg.hash(c.group), key)
  }

  predicate AnyUnskipped(cfg: Config, c: Candidate, skipped: set<Identity>) {
    exists i :: i in Sampled(c) && CandidateIdentity(cfg, c, i) !in skipped
  }

  function ScanOne(cfg: Config, x: Scan, c: Candidate, ctx: PlanContext): Scan {
    if !AnyUnskipped(cfg, c, ctx.skipped) then x
    else
      var v := Judge(cfg, x.table, c, ctx.now);
      var s := AfterDial(cfg, x.table, c, ctx.now);
      match v.dial
      case Ready =>
        x.(table := s, available := x.available + [Scored(c, Score(cfg, s, c, ctx.affinity, ctx.latencyOptimized))])
      case Cooling(w) => x.(table := s, wait := Sooner(x.wait, w))
      case Blocked(reason) =>
        var gate := if x.gate.None? then Some(reason) else x.gate;
        match v.wait
        case Some(w) => x.(table := s, gate := gate, wait := Sooner(x.wait, w))
        case None => x.(table := s, gate := gate, hardBlocked := true)
  }

  function ScanAll(cfg: Config, x: Scan, cs: seq<Candidate>, ctx: PlanContext): Scan {
    if cs == [] then x
    else ScanOne(cfg, ScanAll(cfg, x, cs[..|cs| - 1], ctx), cs[|cs| - 1], ctx)
  }

  function ScanTier(cfg: Config, s: Table, models: seq<Name>, gate: Option<GateReason>, ctx: PlanContext): Scan {
    ScanAll(cfg, Scan(s, [], None, false, gate), TierCandidates(cfg, s.rotation, models), ctx)
  }

  /** The first sampled key that is ready; the first sampled key when none is. */
  function ChosenKey(s: Table, c: Candidate, later: nat): nat {
    if KeyReady(s, c.a, later) || |Sampled(c)| == 1 then c.a
    else if KeyReady(s, Sampled(c)[1], later) then Sampled(c)[1] else c.a
  }

  function Select(cfg: Config, x: Scan, tier: nat, ctx: PlanContext, later: nat): (Table, PlanResult)
    requires x.available != []
  {
    var c := Order(cfg, x.available, ctx.affinity, x.table.rotation)[0].candidate;
    var s := x.table.(rotation := x.table.rotation + 1);
    (TouchSampled(s, c, later),
     Planned(RouteTarget(c.model, c.group, ChosenKey(s, c, later), tier), tier, x.gate, x.wait))
  }

  function PlanFrom(cfg: Config, s: Table, tiers: seq<Tier>, tier: nat, allowLower: bool, ctx: PlanContext,
                    gate: Option<GateReason>, wait: Option<nat>, later: nat): (Table, PlanResult)
    requires tier <= |tiers|
    decreases |tiers| - tier
  {
    if tier == |tiers| then (s, Unavailable(wait))
    else
      var x := ScanTier(cfg, s, tiers[tier].models, gate, ctx);
      if x.available != [] then Select(cfg, x, tier, ctx, later)
      else
        match x.wait
        case None => PlanFrom(cfg, x.table, tiers, tier + 1, allowLower, ctx, x.gate, wait, later)
        case Some(w) =>
          if allowLower then PlanFrom(cfg, x.table, tiers, tier + 1, allowLower, ctx, x.gate, Sooner(wait, w), later)
          else (x.table, Unavailable(Sooner(wait, w)))
  }

  predicate Sessionless(tag: string) {
    tag == "" || tag == NO_SESSION
  }

  function AffinityRoute(s: Table, tag: string, now: nat): (Table, Option<RouteId>) {
    if Sessionless(tag) || tag !in s.affinity then (s, None)
    else if s.affinity[tag].expires <= now then (s.(affinity := s.affinity - {tag}), None)
    else (s, Some(s.affinity[tag].route))
  }

  predicate Known(cfg: Config, spec: RouteSpec) {
    spec.ProfileSpec? ==> spec.name in cfg.profiles
  }

  /** A literal model is its own single tier and is never substituted. */
  function ProfileOf(cfg: Config, spec: RouteSpec): Profile
    requires Known(cfg, spec)
  {
    match spec
    case LiteralSpec(model) => Profile([Tier([model])], false, false)
    case ProfileSpec(name) => cfg.profiles[name]
  }

  /** One atomic planning step: `now` is read first, and `later` when the credential is picked. */
  function Plan(cfg: Config, s: Table, spec: RouteSpec, tag: string, skipped: set<Identity>,
                now: nat, later: nat): (Table, PlanResult)
  {
    if !Known(cfg, spec) then (s, Unavailable(None))
    else
      var p := ProfileOf(cfg, spec);
      var (s', affinity) := AffinityRoute(s, tag, now);
      PlanFrom(cfg, s', p.tiers, 0, p.allowLowerTier,
               PlanContext(now, affinity, p.latencyOptimized, skipped), None, None, later)
  }

  datatype FollowupResult = Continue(wait: nat, waitable: bool) | Return

  function BreakAffinity(s: Table, tag: string): Table {
    if Sessionless(tag) then s else s.(affinity := s.affinity - {tag})
  }

  function Followup(cfg: Config, s: Table, spec: RouteSpec, tag: string, failed: RouteTarget,
                    skipped: set<Identity>, now: nat, later: nat): (Table, FollowupResult)
  {
    var (s', result) := Plan(cfg, BreakAffinity(s, tag), spec, NO_SESSION, skipped + {IdentityOf(cfg, failed)}, now,
                             later);
    match result
    case Planned(_, _, _, next) => (s', Continue(if next.Some? then next.value else 0, false))
    case Unavailable(wait) =>
      (s', if wait.Some? && wait.value <= cfg.retryAfterMax then Continue(wait.value, true) else Return)
  }

  // --- recording outcomes -------------------------------------------------------

  function SetKey(s: Table, i: nat, k: KeyState): Table {
    if i < |s.keys| then s.(keys := s.keys[i := k]) else s
  }

  function KeyOf(s: Table, i: nat): KeyState {
    if i < |s.keys| then s.keys[i] else FRESH_KEY
  }

  function BreakAffinityForRoute(s: Table, id: RouteId): Table {
    s.(affinity := map tag | tag in s.affinity && s.affinity[tag].route != id :: s.affinity[tag])
  }

  function BreakAffinityForGroup(s: Table, group: int): Table {
    s.(affinity := map tag | tag in s.affinity && s.affinity[tag].route.group != group :: s.affinity[tag])
  }

  function NoteSuccess(cfg: Config, s: Table, t: RouteTarget, latencyCost: nat): Table {
    var id := TargetId(cfg, t);
    var s1 := SetKey(s, t.key, KeyOf(s, t.key).(streak := 0, coolingUntil := None, latencyCost := latencyCost));
    s1.(routes := if id in s.routes then s.routes[id := FRESH_ROUTE] else s.routes,
        groups := if t.group in s.groups then s.groups[t.group := None] else s.groups,
        models := if t.model in s.models then s.models[t.model := RecordSuccess(s.models[t.model])] else s.models)
  }

  function FailModel(cfg: Config, s: Table, t: RouteTarget, now: nat): Table {
    s.(models := s.models[t.model := RecordFailure(ModelOf(s, t.model), cfg.hash(t.group), now, cfg.thresholds).0])
  }

  function FailTransition(cfg: Config, s: Table, t: RouteTarget, now: nat): Transition {
    RecordFailure(ModelOf(s, t.model), cfg.hash(t.group), now, cfg.thresholds).1
  }

  function RateLimitCooldown(cfg: Config, attempt: nat, streak: nat, hint: Option<nat>, jitter: real): nat {
    BarrierDuration(attempt, cfg.cooldownInitial, cfg.cooldownMax, cfg.maxModelCooldown, streak, hint, jitter)
  }

  /** A generic 429 cools one (model, group) route and raises the key's streak. */
  function NoteRateLimited(cfg: Config, s: Table, t: RouteTarget, attempt: nat, streak: nat,
                           hint: Option<nat>, jitter: real, now: nat): Table
  {
    var until := Deadline(now, RateLimitCooldown(cfg, attempt, streak, hint, jitter));
    var id := TargetId(cfg, t);
    var s1 := SetKey(s, t.key, KeyOf(s, t.key).(streak := Min(streak + 1, U32_MAX)));
    FailModel(cfg, s1.(routes := s.routes[id := RouteOf(s, id).(coolingUntil := Some(until))]), t, now)
  }

  function CoolGroupKeys(cfg: Config, keys: seq<KeyState>, group: Name, until: nat): seq<KeyState> {
    seq(|keys|, i requires 0 <= i < |keys| =>
      if i < |cfg.groups| && cfg.groups[i] == group then keys[i].(coolingUntil := Some(until)) else keys[i])
  }

  /** Explicit exhaustion cools the group and every key in it. */
  function NoteQuotaExhausted(cfg: Config, s: Table, t: RouteTarget, cooldown: nat, now: nat): Table {
    var until := Deadline(now, cooldown);
    BreakAffinityForGroup(
      s.(groups := s.groups[t.group := Some(until)], keys := CoolGroupKeys(cfg, s.keys, t.group, until)),
      cfg.hash(t.group))
  }

  function NoteAuthenticationFailure(cfg: Config, s: Table, t: RouteTarget): Table {
    BreakAffinityForRoute(
      SetKey(s, t.key, KeyOf(s, t.key).(unusable := true, coolingUntil := None)), TargetId(cfg, t))
  }

  /** A 404 disables the route; enough distinct groups take the model out. */
  function NoteModelMissing(cfg: Config, s: Table, t: RouteTarget, now: nat): Table {
    var id := TargetId(cfg, t);
    var s1 := BreakAffinityForRoute(s, id);
    s1.(routes := s.routes[id := RouteOf(s, id).(disabledUntil := Some(Deadline(now, cfg.thresholds.missingFor)))],
        models := s.models[t.model := RecordMissing(ModelOf(s, t.model), cfg.hash(t.group), now, cfg.thresholds)])
  }

  predicate KeyHasAlternatives(cfg: Config, t: RouteTarget) {
    exists i :: 0 <= i < |cfg.groups| && i != t.key && cfg.groups[i] != t.group
  }

  function TransientCooldown(cfg: Config, t: RouteTarget, attempt: nat, hint: Option<nat>, jitter: real): nat {
    var full := BarrierDuration(attempt, cfg.cooldownInitial, cfg.cooldownMax, cfg.maxModelCooldown, 0, hint, jitter);
    if KeyHasAlternatives(cfg, t) then Min(full, HEALTHY_ROUTE_STEP) else full
  }

  /** A transient failure cools the key briefly, and only when another group exists. */
  function NoteTransientFailure(cfg: Config, s: Table, t: RouteTarget, attempt: nat,
                                hint: Option<nat>, jitter: real, now: nat): Table
  {
    var until := Deadline(now, TransientCooldown(cfg, t, attempt, hint, jitter));
    var s1 := if KeyHasAlternatives(cfg, t)
              then SetKey(s, t.key, KeyOf(s, t.key).(coolingUntil := Some(until))) else s;
    FailModel(cfg, s1, t, now)
  }

  // --- in-flight guards -----------------------------------------------------------

  function BeginAttempt(s: Table, t: RouteTarget): Table {
    var s1 := s.(models := s.models[t.model := TakeProbe(ModelOf(s, t.model))]);
    SetKey(s1, t.key, KeyOf(s, t.key).(inflight := KeyOf(s, t.key).inflight + 1))
  }

  function ReleaseModelProbe(s: Table, model: Name): Table {
    if model in s.models then s.(models := s.models[model := ReleaseProbe(s.models[model])]) else s
  }

  function DropGuard(s: Table, key: nat, model: Name, holdsProbe: bool): Table {
    var s1 := SetKey(s, key, KeyOf(s, key).(inflight := Max(KeyOf(s, key).inflight - 1, 0)));
    if holdsProbe && model in s.models then s1.(models := s.models[model := DropProbe(s.models[model])]) else s1
  }
}
