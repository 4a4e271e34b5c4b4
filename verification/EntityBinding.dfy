/** Binding semantic roles to native entities (`bind_meter`, `MeterBinding.rebind`). Names and
    expected object IDs come from substitutions, so a role's specification is a parameter, and
    so is the word pattern match. */
module EntityBinding {
  import opened Common

  datatype Kind = Number | Sensor | Button

  /** A native entity; its key is unique within a connection. */
  datatype Entity = Entity(key: nat, kind: Kind, objectId: string, name: string, unit: string)

  predicate Catalog(entities: seq<Entity>) {
    && (forall i, j :: 0 <= i < j < |entities| ==> entities[i].key != entities[j].key)
    && forall e :: e in entities ==> e.objectId != ""
  }

  datatype Role =
    | ReferenceVoltage(board: nat, group: nat)
    | ReferenceCurrent(channel: nat)
    | VoltageSensor(board: nat, group: nat, phase: nat)
    | CurrentSensor(channel: nat)
    | RunGain(board: nat, group: nat) | RestoreGain(board: nat, group: nat)
    | RunOffset(board: nat, group: nat) | RestoreOffset(board: nat, group: nat)
    | RunPowerOffset(board: nat, group: nat) | RestorePowerOffset(board: nat, group: nat)

  function KindOf(role: Role): Kind {
    if role.ReferenceVoltage? || role.ReferenceCurrent? then Number
    else if role.VoltageSensor? || role.CurrentSensor? then Sensor
    else Button
  }

  function UnitOf(role: Role): string {
    if role.ReferenceVoltage? || role.VoltageSensor? then "V"
    else if role.ReferenceCurrent? || role.CurrentSensor? then "A"
    else ""
  }

  datatype Spec = Spec(objectId: string, name: string, alternates: seq<string>, terms: seq<string>)

  datatype Source = Stored | ByObjectId | ByNameUnit | ByPattern

  datatype Bound = Bound(role: Role, entity: Entity, source: Source)

  // ----------------------------------------------------------------- looking up

  datatype Query = WithId(objectId: string) | WithName(name: string) | WithTerms(terms: seq<string>)

  predicate Answers(e: Entity, kind: Kind, unit: string, query: Query, matches: (Entity, seq<string>) -> bool) {
    && e.kind == kind && e.unit == unit
    && match query
       case WithId(objectId) => e.objectId == objectId
       case WithName(name) => e.name == name
       case WithTerms(terms) => matches(e, terms)
  }

  function Select(entities: seq<Entity>, kind: Kind, unit: string, query: Query,
                  matches: (Entity, seq<string>) -> bool): (found: seq<Entity>)
    ensures forall e :: e in found <==> e in entities && Answers(e, kind, unit, query, matches)
  {
    if entities == [] then []
    else
      Select(entities[..|entities| - 1], kind, unit, query, matches)
      + (var last := entities[|entities| - 1]; if Answers(last, kind, unit, query, matches) then [last] else [])
  }

  /** Exactly one entity answers. */
  predicate Unique(entities: seq<Entity>, kind: Kind, unit: string, query: Query,
                   matches: (Entity, seq<string>) -> bool, e: Entity) {
    && e in entities && Answers(e, kind, unit, query, matches)
    && forall other :: other in entities && Answers(other, kind, unit, query, matches) ==> other == e
  }

  predicate NoRepeats(found: seq<Entity>) {
    forall i, j :: 0 <= i < j < |found| ==> found[i] != found[j]
  }

  lemma TwoDiffer(found: seq<Entity>)
    requires NoRepeats(found) && |found| > 1
    ensures exists i, j :: 0 <= i < |found| && 0 <= j < |found| && found[i] != found[j]
  {
    assert found[0] != found[1];
  }

  lemma {:induction false} SelectOnce(entities: seq<Entity>, kind: Kind, unit: string, query: Query,
                                      matches: (Entity, seq<string>) -> bool)
    requires Catalog(entities)
    ensures NoRepeats(Select(entities, kind, unit, query, matches))
  {
    if entities != [] {
      var init, last := entities[..|entities| - 1], entities[|entities| - 1];
      SelectOnce(init, kind, unit, query, matches);
      var found := Select(init, kind, unit, query, matches);
      assert forall i :: 0 <= i < |init| ==> init[i] == entities[i] && init[i].key != last.key;
      forall i | 0 <= i < |found| ensures found[i] != last { assert found[i] in found; }
    }
  }

  lemma {:induction false} SelectUnique(entities: seq<Entity>, kind: Kind, unit: string, query: Query,
                                        matches: (Entity, seq<string>) -> bool)
    requires Catalog(entities)
    ensures var found := Select(entities, kind, unit, query, matches);
            && (|found| == 1 ==> Unique(entities, kind, unit, query, matches, found[0]))
            && (forall e :: Unique(entities, kind, unit, query, matches, e) ==> found == [e])
  {
    var found := Select(entities, kind, unit, query, matches);
    if |found| == 1 { assert found[0] in found; }
    hide Answers, Catalog;
    forall e | Unique(entities, kind, unit, query, matches, e) ensures found == [e] {
      SelectOnce(entities, kind, unit, query, matches);
      assert e in found;
      forall i | 0 <= i < |found| ensures found[i] == e { assert found[i] in found; }
      if |found| > 1 {
        TwoDiffer(found);
        assert false;
      }
    }
  }

  function ByNames(entities: seq<Entity>, kind: Kind, unit: string, names: seq<string>,
                   matches: (Entity, seq<string>) -> bool): seq<Entity> {
    if names == [] then []
    else Select(entities, kind, unit, WithName(names[0]), matches) + ByNames(entities, kind, unit, names[1..], matches)
  }

  // ------------------------------------------------------------------- resolving

  /** The candidates of each tier, most trusted first. */
  function Tiers(entities: seq<Entity>, role: Role, spec: Spec, stored: map<Role, string>,
                 matches: (Entity, seq<string>) -> bool)
    : seq<(Source, seq<Entity>)>
  {
    var kind, unit := KindOf(role), UnitOf(role);
    [(Stored, if role in stored then Select(entities, kind, unit, WithId(stored[role]), matches) else []),
     (ByObjectId, Select(entities, kind, unit, WithId(spec.objectId), matches)),
     (ByNameUnit, ByNames(entities, kind, unit, [spec.name] + spec.alternates, matches)),
     (ByPattern, Select(entities, kind, unit, WithTerms(spec.terms), matches))]
  }

  /** The first tier with a candidate decides; it must hold exactly one unused candidate. */
  function Decide(role: Role, tiers: seq<(Source, seq<Entity>)>, used: set<nat>): Result<Bound> {
    if tiers == [] then Refusal
    else if tiers[0].1 == [] then Decide(role, tiers[1..], used)
    else if |tiers[0].1| == 1 && tiers[0].1[0].key !in used then Result.Ok(Bound(role, tiers[0].1[0], tiers[0].0))
    else Refusal
  }

  function Resolve(entities: seq<Entity>, role: Role, spec: Spec, stored: map<Role, string>,
                   matches: (Entity, seq<string>) -> bool, used: set<nat>): Result<Bound> {
    Decide(role, Tiers(entities, role, spec, stored, matches), used)
  }

  /** A resolved role has an unused entity of the right kind and unit. */
  lemma {:induction false} DecideSound(role: Role, tiers: seq<(Source, seq<Entity>)>, used: set<nat>,
                                       entities: seq<Entity>)
    requires forall t, e :: t in tiers && e in t.1 ==> e in entities && e.kind == KindOf(role) && e.unit == UnitOf(role)
    requires Decide(role, tiers, used).Ok?
    ensures var b := Decide(role, tiers, used).value;
            b.role == role && b.entity in entities && b.entity.kind == KindOf(role) && b.entity.unit == UnitOf(role)
              && b.entity.key !in used
  {
    if tiers[0].1 == [] { DecideSound(role, tiers[1..], used, entities); }
    else { assert tiers[0] in tiers && tiers[0].1[0] in tiers[0].1; }
  }

  lemma {:induction false} ByNamesSound(entities: seq<Entity>, kind: Kind, unit: string, names: seq<string>,
                                        matches: (Entity, seq<string>) -> bool)
    ensures forall e ::
        e in ByNames(entities, kind, unit, names, matches) ==> e in entities && e.kind == kind && e.unit == unit
  {
    if names != [] { ByNamesSound(entities, kind, unit, names[1..], matches); }
  }

  lemma ResolveSound(entities: seq<Entity>, role: Role, spec: Spec, stored: map<Role, string>,
                     matches: (Entity, seq<string>) -> bool, used: set<nat>)
    requires Resolve(entities, role, spec, stored, matches, used).Ok?
    ensures var b := Resolve(entities, role, spec, stored, matches, used).value;
            b.role == role && b.entity in entities && b.entity.kind == KindOf(role) && b.entity.unit == UnitOf(role)
              && b.entity.key !in used
  {
    ByNamesSound(entities, KindOf(role), UnitOf(role), [spec.name] + spec.alternates, matches);
    DecideSound(role, Tiers(entities, role, spec, stored, matches), used, entities);
  }

  /** A stored object ID is kept exactly if it names one unused entity of the role's kind and unit. */
  lemma ResolveKeeps(entities: seq<Entity>, role: Role, spec: Spec, stored: map<Role, string>,
                     matches: (Entity, seq<string>) -> bool, used: set<nat>)
    requires Catalog(entities) && role in stored
    ensures var r := Resolve(entities, role, spec, stored, matches, used);
            r.Ok? && r.value.entity.objectId == stored[role]
            <==> exists e ::
              Unique(entities, KindOf(role), UnitOf(role), WithId(stored[role]), matches, e) && e.key !in used
  {
    var tiers := Tiers(entities, role, spec, stored, matches);
    var r := Resolve(entities, role, spec, stored, matches, used);
    SelectUnique(entities, KindOf(role), UnitOf(role), WithId(stored[role]), matches);
    if r.Ok? {
      ResolveSound(entities, role, spec, stored, matches, used);
      if tiers[0].1 == [] {
        assert Answers(r.value.entity, KindOf(role), UnitOf(role), WithId(stored[role]), matches)
          <==> r.value.entity.objectId == stored[role];
      }
    }
  }

  // ------------------------------------------------------------------ all the roles

  function Channel(board: nat, group: nat, phase: nat): nat { board * 6 + group * 3 + 1 + phase }

  function GroupRoles(board: nat, group: nat): seq<Role> {
    [ReferenceVoltage(board, group),
     ReferenceCurrent(Channel(board, group, 0)), VoltageSensor(board, group, 0),
       CurrentSensor(Channel(board, group, 0)),
     ReferenceCurrent(Channel(board, group, 1)), VoltageSensor(board, group, 1),
       CurrentSensor(Channel(board, group, 1)),
     ReferenceCurrent(Channel(board, group, 2)), VoltageSensor(board, group, 2),
       CurrentSensor(Channel(board, group, 2)),
     RunGain(board, group), RestoreGain(board, group)]
  }

  function OffsetRoles(board: nat, group: nat): seq<Role> {
    [RunOffset(board, group), RestoreOffset(board, group), RunPowerOffset(board, group),
      RestorePowerOffset(board, group)]
  }

  /** The roles of all groups, board by board; `n` counts groups, two to a board. */
  function MeterRoles(n: nat): seq<Role> {
    if n == 0 then [] else MeterRoles(n - 1) + GroupRoles((n - 1) / 2, (n - 1) % 2)
  }

  function OptionalRoles(n: nat): seq<Role> {
    if n == 0 then [] else OptionalRoles(n - 1) + OffsetRoles((n - 1) / 2, (n - 1) % 2)
  }

  /** The group a role belongs to, and its place in the group. */
  function GroupOf(role: Role): nat {
    if role.ReferenceCurrent? || role.CurrentSensor? then if role.channel == 0 then 0 else (role.channel - 1) / 3
    else role.board * 2 + role.group
  }

  function Slot(role: Role): nat {
    match role
    case ReferenceVoltage(_, _) => 0
    case ReferenceCurrent(channel) => if channel == 0 then 0 else 1 + 3 * ((channel - 1) % 3)
    case VoltageSensor(_, _, phase) => 2 + 3 * phase
    case CurrentSensor(channel) => if channel == 0 then 0 else 3 + 3 * ((channel - 1) % 3)
    case RunGain(_, _) => 10
    case RestoreGain(_, _) => 11
    case _ => 12
  }

  lemma Channels(board: nat, group: nat, phase: nat)
    requires group < 2 && phase < 3
    ensures (Channel(board, group, phase) - 1) / 3 == board * 2 + group
        && (Channel(board, group, phase) - 1) % 3 == phase
  {}

  lemma GroupSlots(board: nat, group: nat, k: nat)
    requires group < 2 && k < 12
    ensures GroupOf(GroupRoles(board, group)[k]) == board * 2 + group && Slot(GroupRoles(board, group)[k]) == k
  {
    Channels(board, group, 0);
    Channels(board, group, 1);
    Channels(board, group, 2);
  }

  lemma {:induction false} RolesCount(n: nat)
    ensures |MeterRoles(n)| == 12 * n
  {
    if n > 0 { RolesCount(n - 1); }
  }

  /** Each role has its own place, so that no role is asked for twice. */
  lemma {:induction false} RoleAt(n: nat, i: nat)
    requires i < 12 * n
    ensures |MeterRoles(n)| == 12 * n && GroupOf(MeterRoles(n)[i]) == i / 12 && Slot(MeterRoles(n)[i]) == i % 12
  {
    hide GroupOf, Slot, GroupRoles;
    RolesCount(n - 1);
    RolesCount(n);
    if i < 12 * (n - 1) { RoleAt(n - 1, i); }
    else { GroupSlots((n - 1) / 2, (n - 1) % 2, i - 12 * (n - 1)); }
  }

  lemma RolesDistinct(n: nat)
    ensures forall i, j :: 0 <= i < j < |MeterRoles(n)| ==> MeterRoles(n)[i] != MeterRoles(n)[j]
  {
    RolesCount(n);
    forall i, j | 0 <= i < j < |MeterRoles(n)| ensures MeterRoles(n)[i] != MeterRoles(n)[j] {
      RoleAt(n, i);
      RoleAt(n, j);
    }
  }

  /** What a run of resolutions has bound so far. */
  datatype State = State(bound: seq<Bound>, used: set<nat>)

  /** Bind every role in order, refusing as soon as one cannot be resolved. */
  function BindAll(entities: seq<Entity>, roles: seq<Role>, specs: Role -> Spec, stored: map<Role, string>,
                   matches: (Entity, seq<string>) -> bool): Result<State> {
    if roles == [] then Result.Ok(State([], {}))
    else
      var before, role := BindAll(entities, roles[..|roles| - 1], specs, stored, matches), roles[|roles| - 1];
      if before.Refusal? then Refusal
      else
        var b := Resolve(entities, role, specs(role), stored, matches, before.value.used);
        if b.Refusal? then Refusal
        else Result.Ok(State(before.value.bound + [b.value], before.value.used + {b.value.entity.key}))
  }

  /** Pairwise different entities, and `used` holds exactly their keys. */
  predicate Injective(bound: seq<Bound>, used: set<nat>) {
    && (forall i, j :: 0 <= i < j < |bound| ==> bound[i].entity.key != bound[j].entity.key)
    && (forall b :: b in bound ==> b.entity.key in used)
    && forall key :: key in used ==> exists b :: b in bound && b.entity.key == key
  }

  predicate Proper(b: Bound, entities: seq<Entity>) {
    b.entity in entities && b.entity.kind == KindOf(b.role) && b.entity.unit == UnitOf(b.role)
  }

  lemma InjectivePlus(bound: seq<Bound>, used: set<nat>, b: Bound)
    requires Injective(bound, used) && b.entity.key !in used
    ensures Injective(bound + [b], used + {b.entity.key})
  {
    assert forall i :: 0 <= i < |bound| ==> bound[i] in bound;
    forall key | key in used + {b.entity.key} ensures exists c :: c in bound + [b] && c.entity.key == key {
      if key in used {
        var c :| c in bound && c.entity.key == key;
        assert c in bound + [b];
      } else { assert b in bound + [b]; }
    }
  }

  /** A successful binding serves every role, in order, with its own entity. */
  lemma {:induction false} BindInjective(entities: seq<Entity>, roles: seq<Role>, specs: Role -> Spec,
                                         stored: map<Role, string>, matches: (Entity, seq<string>) -> bool)
    requires BindAll(entities, roles, specs, stored, matches).Ok?
    ensures var s := BindAll(entities, roles, specs, stored, matches).value;
            && |s.bound| == |roles| && Injective(s.bound, s.used)
            && forall i :: 0 <= i < |roles| ==> s.bound[i].role == roles[i] && Proper(s.bound[i], entities)
  {
    if roles != [] {
      BindInjective(entities, roles[..|roles| - 1], specs, stored, matches);
      var before, role := BindAll(entities, roles[..|roles| - 1], specs, stored, matches).value, roles[|roles| - 1];
      ResolveSound(entities, role, specs(role), stored, matches, before.used);
      var b := Resolve(entities, role, specs(role), stored, matches, before.used).value;
      InjectivePlus(before.bound, before.used, b);
    }
  }

  // -------------------------------------------------------------- optional controls

  /** `resolve_optional`: a control that is malformed, ambiguous or taken is reported, not bound. */
  function ResolveOptional(entities: seq<Entity>, role: Role, spec: Spec, stored: map<Role, string>,
                           matches: (Entity, seq<string>) -> bool, used: set<nat>): Option<Bound> {
    if exists e :: e in entities && e.name == spec.name && (e.kind != KindOf(role) || e.unit != UnitOf(role)) then None
    else if |Select(entities, KindOf(role), UnitOf(role), WithName(spec.name), matches)| > 1 then None
    else
      var r := Resolve(entities, role, spec.(alternates := []), stored, matches, used);
      if r.Ok? then Some(r.value) else None
  }

  function BindOptional(entities: seq<Entity>, roles: seq<Role>, specs: Role -> Spec, stored: map<Role, string>,
                        matches: (Entity, seq<string>) -> bool, groups: State): State {
    if roles == [] then groups
    else
      var before, role := BindOptional(entities, roles[..|roles| - 1], specs, stored, matches, groups),
        roles[|roles| - 1];
      var b := ResolveOptional(entities, role, specs(role), stored, matches, before.used);
      if b.None? then before else State(before.bound + [b.value], before.used + {b.value.entity.key})
  }

  /** Optional controls never share an entity with each other or with a group role. */
  lemma {:induction false} OptionalInjective(entities: seq<Entity>, roles: seq<Role>, specs: Role -> Spec,
                                             stored: map<Role, string>, matches: (Entity, seq<string>) -> bool,
                                             groups: State)
    requires Injective(groups.bound, groups.used)
    ensures var s := BindOptional(entities, roles, specs, stored, matches, groups);
            Injective(s.bound, s.used) && groups.bound <= s.bound
  {
    if roles != [] {
      OptionalInjective(entities, roles[..|roles| - 1], specs, stored, matches, groups);
      var before, role := BindOptional(entities, roles[..|roles| - 1], specs, stored, matches, groups),
        roles[|roles| - 1];
      var b := ResolveOptional(entities, role, specs(role), stored, matches, before.used);
      if b.Some? {
        ResolveSound(entities, role, specs(role).(alternates := []), stored, matches, before.used);
        InjectivePlus(before.bound, before.used, b.value);
      }
    }
  }

  // ------------------------------------------------------------------------ binding

  datatype Binding = Binding(groups: seq<Bound>, controls: seq<Bound>)

  lemma {:induction false} RefusedThen(entities: seq<Entity>, roles: seq<Role>, n: nat, specs: Role -> Spec,
                                       stored: map<Role, string>, matches: (Entity, seq<string>) -> bool)
    requires n <= |roles| && BindAll(entities, roles[..n], specs, stored, matches).Refusal?
    ensures BindAll(entities, roles, specs, stored, matches).Refusal?
  {
    if n < |roles| {
      assert roles[..|roles| - 1][..n] == roles[..n];
      RefusedThen(entities, roles[..|roles| - 1], n, specs, stored, matches);
    } else { assert roles[..n] == roles; }
  }

  /** The roles of one group, behind those already bound. */
  method BindGroup(entities: seq<Entity>, board: nat, group: nat, specs: Role -> Spec, stored: map<Role, string>,
                   matches: (Entity, seq<string>) -> bool, before: State, ghost done: seq<Role>)
    returns (result: Result<State>)
    requires BindAll(entities, done, specs, stored, matches) == Result.Ok(before)
    ensures result == BindAll(entities, done + GroupRoles(board, group), specs, stored, matches)
  {
    hide Resolve, GroupRoles;
    var s, roles, i := before, GroupRoles(board, group), 0;
    assert done + roles[..0] == done;
    while i < |roles|
      invariant 0 <= i <= |roles|
      invariant BindAll(entities, done + roles[..i], specs, stored, matches) == Result.Ok(s)
    {
      assert (done + roles[..i + 1])[..|done| + i] == done + roles[..i];
      var b := Resolve(entities, roles[i], specs(roles[i]), stored, matches, s.used);
      if b.Refusal? {
        assert (done + roles)[..|done| + i + 1] == done + roles[..i + 1];
        RefusedThen(entities, done + roles, |done| + i + 1, specs, stored, matches);
        return Refusal;
      }
      s, i := State(s.bound + [b.value], s.used + {b.value.entity.key}), i + 1;
    }
    assert roles[..i] == roles;
    result := Result.Ok(s);
  }

  lemma {:induction false} RolesPrefix(n: nat, m: nat)
    requires n <= m
    ensures MeterRoles(n) <= MeterRoles(m)
  {
    if n < m { RolesPrefix(n, m - 1); }
  }

  lemma RefusedAll(entities: seq<Entity>, n: nat, m: nat, specs: Role -> Spec, stored: map<Role, string>,
                   matches: (Entity, seq<string>) -> bool)
    requires n <= m && BindAll(entities, MeterRoles(n), specs, stored, matches).Refusal?
    ensures BindAll(entities, MeterRoles(m), specs, stored, matches).Refusal?
  {
    hide BindAll;
    RolesPrefix(n, m);
    assert MeterRoles(m)[..|MeterRoles(n)|] == MeterRoles(n);
    RefusedThen(entities, MeterRoles(m), |MeterRoles(n)|, specs, stored, matches);
  }

  /** The two groups of one board. */
  method BindBoard(entities: seq<Entity>, board: nat, specs: Role -> Spec, stored: map<Role, string>,
                   matches: (Entity, seq<string>) -> bool, before: State) returns (result: Result<State>)
    requires BindAll(entities, MeterRoles(2 * board), specs, stored, matches) == Result.Ok(before)
    ensures result == BindAll(entities, MeterRoles(2 * board + 2), specs, stored, matches)
  {
    hide GroupRoles, BindAll;
    var s, group := before, 0;
    while group < 2
      invariant 0 <= group <= 2
      invariant BindAll(entities, MeterRoles(2 * board + group), specs, stored, matches) == Result.Ok(s)
    {
      ghost var n := 2 * board + group;
      assert n / 2 == board && n % 2 == group;
      result := BindGroup(entities, board, group, specs, stored, matches, s, MeterRoles(n));
      assert MeterRoles(n) + GroupRoles(board, group) == MeterRoles(n + 1);
      if result.Refusal? {
        RefusedAll(entities, n + 1, 2 * board + 2, specs, stored, matches);
        return;
      }
      s, group := result.value, group + 1;
    }
    result := Result.Ok(s);
  }

  lemma BindNone(entities: seq<Entity>, specs: Role -> Spec, stored: map<Role, string>,
                 matches: (Entity, seq<string>) -> bool)
    ensures BindAll(entities, MeterRoles(0), specs, stored, matches) == Result.Ok(State([], {}))
  {}

  /** All groups, board by board. */
  method BindGroups(entities: seq<Entity>, boards: nat, specs: Role -> Spec, stored: map<Role, string>,
                    matches: (Entity, seq<string>) -> bool) returns (result: Result<State>)
    ensures result == BindAll(entities, MeterRoles(2 * boards), specs, stored, matches)
  {
    var s, board := State([], {}), 0;
    hide MeterRoles, BindAll;
    BindNone(entities, specs, stored, matches);
    while board < boards
      invariant 0 <= board <= boards
      invariant BindAll(entities, MeterRoles(2 * board), specs, stored, matches) == Result.Ok(s)
    {
      result := BindBoard(entities, board, specs, stored, matches, s);
      if result.Refusal? {
        RefusedAll(entities, 2 * board + 2, 2 * boards, specs, stored, matches);
        return;
      }
      s, board := result.value, board + 1;
    }
    result := Result.Ok(s);
  }

  lemma OptionalNone(entities: seq<Entity>, optional: seq<Role>, specs: Role -> Spec, stored: map<Role, string>,
                     matches: (Entity, seq<string>) -> bool, before: State)
    ensures BindOptional(entities, optional[..0], specs, stored, matches, before) == before
  {}

  lemma OptionalStep(entities: seq<Entity>, optional: seq<Role>, k: nat, specs: Role -> Spec, stored: map<Role, string>,
                     matches: (Entity, seq<string>) -> bool, before: State)
    requires k < |optional|
    ensures var s := BindOptional(entities, optional[..k], specs, stored, matches, before);
            var b := ResolveOptional(entities, optional[k], specs(optional[k]), stored, matches, s.used);
            BindOptional(entities, optional[..k + 1], specs, stored, matches, before)
            == if b.Some? then State(s.bound + [b.value], s.used + {b.value.entity.key}) else s
  {
    assert optional[..k + 1][..k] == optional[..k];
    hide ResolveOptional;
  }

  /** `bind_meter`: all groups, then the optional controls. */
  method BindMeter(entities: seq<Entity>, boards: nat, specs: Role -> Spec, stored: map<Role, string>,
                   matches: (Entity, seq<string>) -> bool) returns (result: Result<Binding>)
    ensures var all := BindAll(entities, MeterRoles(2 * boards), specs, stored, matches);
            && (result.Ok? <==> all.Ok?)
            && (result.Ok? ==> result.value.groups == all.value.bound)
            && (result.Ok? ==>
                  result.value.groups + result.value.controls
                  == BindOptional(entities, OptionalRoles(2 * boards), specs, stored, matches, all.value).bound)
  {
    hide *;
    var groups := BindGroups(entities, boards, specs, stored, matches);
    if groups.Refusal? { return Refusal; }
    var s, optional, k := groups.value, OptionalRoles(2 * boards), 0;
    OptionalNone(entities, optional, specs, stored, matches, s);
    while k < |optional|
      invariant 0 <= k <= |optional| && groups.value.bound <= s.bound
      invariant BindOptional(entities, optional[..k], specs, stored, matches, groups.value) == s
    {
      OptionalStep(entities, optional, k, specs, stored, matches, groups.value);
      var b := ResolveOptional(entities, optional[k], specs(optional[k]), stored, matches, s.used);
      if b.Some? { s := State(s.bound + [b.value], s.used + {b.value.entity.key}); }
      k := k + 1;
    }
    assert optional[..k] == optional;
    assert s.bound == groups.value.bound + s.bound[|groups.value.bound|..];
    result := Result.Ok(Binding(groups.value.bound, s.bound[|groups.value.bound|..]));
  }

  // ---------------------------------------------------------------------- rebinding

  /** `semantic_mapping`: what is remembered of a binding. */
  function Mapping(bound: seq<Bound>): map<Role, string> {
    if bound == [] then map[]
    else Mapping(bound[..|bound| - 1])[bound[|bound| - 1].role := bound[|bound| - 1].entity.objectId]
  }

  lemma {:induction false} MappingMeans(bound: seq<Bound>)
    requires forall i, j :: 0 <= i < j < |bound| ==> bound[i].role != bound[j].role
    ensures forall i ::
        0 <= i < |bound| ==>
          bound[i].role in Mapping(bound) && Mapping(bound)[bound[i].role] == bound[i].entity.objectId
    ensures forall role :: role in Mapping(bound) ==> exists i :: 0 <= i < |bound| && bound[i].role == role
  {
    if bound != [] {
      var init := bound[..|bound| - 1];
      MappingMeans(init);
      assert forall i :: 0 <= i < |init| ==> init[i] == bound[i];
      forall role | role in Mapping(bound) ensures exists i :: 0 <= i < |bound| && bound[i].role == role {
        if role in Mapping(init) {
          var i :| 0 <= i < |init| && init[i].role == role;
          assert bound[i].role == role;
        } else { assert bound[|bound| - 1].role == role; }
      }
    }
  }

  /** Roles that one stored object ID could not tell apart. */
  predicate Alike(a: Role, b: Role, stored: map<Role, string>) {
    KindOf(a) == KindOf(b) && UnitOf(a) == UnitOf(b) && a in stored && b in stored && stored[a] == stored[b]
  }

  /** The stored object ID of every role names exactly one entity of its kind and unit, and no
      two roles of one kind and unit share it. */
  ghost predicate Recognisable(entities: seq<Entity>, roles: seq<Role>, stored: map<Role, string>,
                               matches: (Entity, seq<string>) -> bool) {
    && (forall role :: role in roles ==> role in stored)
    && (forall role :: role in roles ==>
          exists e :: Unique(entities, KindOf(role), UnitOf(role), WithId(stored[role]), matches, e))
    && forall i, j :: 0 <= i < j < |roles| ==> !Alike(roles[i], roles[j], stored)
  }

  predicate Keeps(s: State, roles: seq<Role>, stored: map<Role, string>) {
    && |s.bound| == |roles|
    && forall i ::
      0 <= i < |roles| ==>
        roles[i] in stored && s.bound[i].role == roles[i] && s.bound[i].entity.objectId == stored[roles[i]]
  }

  lemma KeysDiffer(entities: seq<Entity>, a: Entity, b: Entity)
    requires Catalog(entities) && a in entities && b in entities && a != b
    ensures a.key != b.key
  {
    var i :| 0 <= i < |entities| && entities[i] == a;
    var j :| 0 <= j < |entities| && entities[j] == b;
    if i < j {} else {}
  }

  /** A recognisable entity is still free when its role comes up. */
  lemma StillFree(entities: seq<Entity>, roles: seq<Role>, specs: Role -> Spec, stored: map<Role, string>,
                  matches: (Entity, seq<string>) -> bool, role: Role, e: Entity)
    requires Catalog(entities) && role in stored
    requires Unique(entities, KindOf(role), UnitOf(role), WithId(stored[role]), matches, e)
    requires BindAll(entities, roles, specs, stored, matches).Ok?
    requires Keeps(BindAll(entities, roles, specs, stored, matches).value, roles, stored)
    ensures e.key !in BindAll(entities, roles, specs, stored, matches).value.used
            <==> forall i :: 0 <= i < |roles| ==> !Alike(roles[i], role, stored)
  {
    var s := BindAll(entities, roles, specs, stored, matches).value;
    BindInjective(entities, roles, specs, stored, matches);
    forall i | 0 <= i < |roles| ensures Alike(roles[i], role, stored) <==> s.bound[i].entity.key == e.key {
      var other := s.bound[i].entity;
      assert Proper(s.bound[i], entities) && other.objectId == stored[roles[i]];
      assert Alike(roles[i], role, stored)
        <==> Answers(other, KindOf(role), UnitOf(role), WithId(stored[role]), matches);
      if other != e { KeysDiffer(entities, other, e); }
    }
    assert forall i :: 0 <= i < |roles| ==> s.bound[i] in s.bound;
  }

  lemma RecognisableStep(entities: seq<Entity>, roles: seq<Role>, stored: map<Role, string>,
                         matches: (Entity, seq<string>) -> bool)
    requires roles != [] && forall role :: role in roles ==> role in stored
    ensures var init, role := roles[..|roles| - 1], roles[|roles| - 1];
            Recognisable(entities, roles, stored, matches) <==>
              && Recognisable(entities, init, stored, matches)
              && (exists e :: Unique(entities, KindOf(role), UnitOf(role), WithId(stored[role]), matches, e))
              && forall i :: 0 <= i < |init| ==> !Alike(init[i], role, stored)
  {
    var init, role := roles[..|roles| - 1], roles[|roles| - 1];
    assert roles == init + [role];
    assert forall i :: 0 <= i < |init| ==> init[i] == roles[i];
    assert forall r :: r in roles <==> r in init || r == role;
    if Recognisable(entities, init, stored, matches) && forall i :: 0 <= i < |init| ==> !Alike(init[i], role, stored) {
      forall i, j | 0 <= i < j < |roles| ensures !Alike(roles[i], roles[j], stored) {
        if j < |init| { assert !Alike(init[i], init[j], stored); }
      }
    }
    if Recognisable(entities, roles, stored, matches) {
      assert role in roles && exists e ::
        Unique(entities, KindOf(role), UnitOf(role), WithId(stored[role]), matches, e);
      assert Recognisable(entities, init, stored, matches) by {
        forall r | r in init ensures exists e :: Unique(entities, KindOf(r), UnitOf(r), WithId(stored[r]), matches, e) {
          assert r in roles;
        }
        forall i, j | 0 <= i < j < |init| ensures !Alike(init[i], init[j], stored) {
          assert !Alike(roles[i], roles[j], stored);
        }
      }
      forall i | 0 <= i < |init| ensures !Alike(init[i], role, stored) {
        assert !Alike(roles[i], roles[|roles| - 1], stored);
      }
    }
  }

  lemma NoneRecognisable(entities: seq<Entity>, stored: map<Role, string>, matches: (Entity, seq<string>) -> bool)
    ensures Recognisable(entities, [], stored, matches)
  {}

  lemma BindStep(entities: seq<Entity>, roles: seq<Role>, specs: Role -> Spec, stored: map<Role, string>,
                 matches: (Entity, seq<string>) -> bool)
    requires roles != []
    ensures var before, role := BindAll(entities, roles[..|roles| - 1], specs, stored, matches), roles[|roles| - 1];
            BindAll(entities, roles, specs, stored, matches) ==
            if before.Refusal? then Refusal
            else
              var b := Resolve(entities, role, specs(role), stored, matches, before.value.used);
              if b.Refusal? then Refusal
              else Result.Ok(State(before.value.bound + [b.value], before.value.used + {b.value.entity.key}))
  {
    hide Resolve;
  }

  lemma KeepsPlus(s: State, roles: seq<Role>, stored: map<Role, string>, b: Bound, role: Role)
    requires |s.bound| == |roles| && role in stored && b.role == role
    ensures Keeps(State(s.bound + [b], s.used + {b.entity.key}), roles + [role], stored)
            <==> Keeps(s, roles, stored) && b.entity.objectId == stored[role]
  {
    var more := s.bound + [b];
    if Keeps(State(more, s.used + {b.entity.key}), roles + [role], stored) {
      forall i | 0 <= i < |roles|
        ensures roles[i] in stored && s.bound[i].role == roles[i] && s.bound[i].entity.objectId == stored[roles[i]]
      {
        assert (roles + [role])[i] == roles[i] && more[i] == s.bound[i];
      }
      assert more[|roles|] == b && (roles + [role])[|roles|] == role;
    }
  }

  lemma KeepsStep(entities: seq<Entity>, roles: seq<Role>, specs: Role -> Spec, stored: map<Role, string>,
                  matches: (Entity, seq<string>) -> bool)
    requires roles != [] && forall role :: role in roles ==> role in stored
    ensures var r := BindAll(entities, roles, specs, stored, matches);
            var init, role := roles[..|roles| - 1], roles[|roles| - 1];
            var before := BindAll(entities, init, specs, stored, matches);
            r.Ok? && Keeps(r.value, roles, stored) <==>
              && before.Ok? && Keeps(before.value, init, stored)
              && (var b := Resolve(entities, role, specs(role), stored, matches, before.value.used);
                  b.Ok? && b.value.entity.objectId == stored[role])
  {
    hide *;
    var init, role := roles[..|roles| - 1], roles[|roles| - 1];
    var before := BindAll(entities, init, specs, stored, matches);
    BindStep(entities, roles, specs, stored, matches);
    assert roles == init + [role] && role in roles;
    if before.Ok? {
      BindInjective(entities, init, specs, stored, matches);
      var b := Resolve(entities, role, specs(role), stored, matches, before.value.used);
      if b.Ok? {
        ResolveSound(entities, role, specs(role), stored, matches, before.value.used);
        KeepsPlus(before.value, init, stored, b.value, role);
      }
    }
  }

  /** A fresh catalog with any keys, names and substitutions: every role keeps its stored
      object ID exactly if the stored IDs are recognisable in it. */
  lemma {:induction false} RebindStable(entities: seq<Entity>, roles: seq<Role>, specs: Role -> Spec,
                                        stored: map<Role, string>, matches: (Entity, seq<string>) -> bool)
    requires Catalog(entities) && forall role :: role in roles ==> role in stored
    ensures var r := BindAll(entities, roles, specs, stored, matches);
            r.Ok? && Keeps(r.value, roles, stored) <==> Recognisable(entities, roles, stored, matches)
  {
    hide Recognisable, Unique, Resolve, Alike;
    if roles == [] {
      NoneRecognisable(entities, stored, matches);
    } else {
      var init, role := roles[..|roles| - 1], roles[|roles| - 1];
      RebindStable(entities, init, specs, stored, matches);
      RecognisableStep(entities, roles, stored, matches);
      KeepsStep(entities, roles, specs, stored, matches);
      var before := BindAll(entities, init, specs, stored, matches);
      if before.Ok? && Keeps(before.value, init, stored) {
        ResolveKeeps(entities, role, specs(role), stored, matches, before.value.used);
        forall e | Unique(entities, KindOf(role), UnitOf(role), WithId(stored[role]), matches, e)
          ensures e.key !in before.value.used <==> forall i :: 0 <= i < |init| ==> !Alike(init[i], role, stored)
        {
          StillFree(entities, init, specs, stored, matches, role, e);
        }
      }
    }
  }

  predicate Serves(bound: seq<Bound>, roles: seq<Role>) {
    |bound| == |roles| && forall i :: 0 <= i < |roles| ==> bound[i].role == roles[i]
  }

  predicate SameIds(a: seq<Bound>, b: seq<Bound>) {
    |a| == |b| && forall i :: 0 <= i < |a| ==> a[i].entity.objectId == b[i].entity.objectId
  }

  lemma SameKeeps(s: State, roles: seq<Role>, stored: map<Role, string>, bound: seq<Bound>)
    requires Serves(bound, roles) && Serves(s.bound, roles)
    requires forall i ::
        0 <= i < |bound| ==> bound[i].role in stored && stored[bound[i].role] == bound[i].entity.objectId
    ensures SameIds(s.bound, bound) <==> Keeps(s, roles, stored)
  {
    forall i | 0 <= i < |roles| ensures stored[roles[i]] == bound[i].entity.objectId {
      assert bound[i].role == roles[i];
    }
  }

  /** Rebinding after a reconnect: every role keeps the object ID it had, whatever keys, names
      and substitutions the fresh catalog comes with, exactly if the IDs are recognisable. */
  lemma RebindMeter(bound: seq<Bound>, entities: seq<Entity>, boards: nat, specs: Role -> Spec,
                    matches: (Entity, seq<string>) -> bool)
    requires Catalog(entities) && Serves(bound, MeterRoles(2 * boards))
    ensures var r := BindAll(entities, MeterRoles(2 * boards), specs, Mapping(bound), matches);
            r.Ok? && SameIds(r.value.bound, bound) <==>
            Recognisable(entities, MeterRoles(2 * boards), Mapping(bound), matches)
  {
    var roles, stored := MeterRoles(2 * boards), Mapping(bound);
    RolesDistinct(2 * boards);
    hide MeterRoles, BindAll, Recognisable, Injective, Proper, Mapping;
    MappingMeans(bound);
    forall role | role in roles ensures role in stored {
      var i :| 0 <= i < |roles| && roles[i] == role;
      assert bound[i].role in stored;
    }
    RebindStable(entities, roles, specs, stored, matches);
    var r := BindAll(entities, roles, specs, stored, matches);
    if r.Ok? {
      BindInjective(entities, roles, specs, stored, matches);
      SameKeeps(r.value, roles, stored, bound);
    }
  }
}
