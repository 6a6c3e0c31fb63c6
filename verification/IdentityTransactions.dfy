/** The identity service as a transaction over two stores: database rows and multi-valued Git
    configuration. Every runner and database call consumes one entry of a fault schedule, so the
    contracts hold whatever fails, and say exactly what happens when nothing does. */
module IdentityTransactions {
  import opened Wrappers
  import opened IdentityConfig
  import IdentityResolver

  type ProfileId = string
  type RepositoryId = string

  /** A configuration file of Git's own. Linked worktrees are repositories of their own to the host,
      and share the file of their main checkout. */
  type StoreId = string

  datatype Scope = Global | Local(store: StoreId)

  datatype Slot = Slot(scope: Scope, key: Key)

  /** The values Git stores, per scope and key; no entry means no values. */
  type Config = map<Slot, seq<string>>

  function At(c: Config, slot: Slot): seq<string> {
    if slot in c then c[slot] else []
  }

  /** What `git config --local` reaches from a repository. One that is not registered is never
      touched; its name stands for its file. */
  function ScopeOf(stores: map<RepositoryId, StoreId>, repo: RepositoryId): Scope {
    Local(if repo in stores then stores[repo] else repo)
  }

  function Stored(c: Config, scope: Scope, k: Key): seq<string> { At(c, Slot(scope, k)) }

  // ---- comparing configurations ----

  ghost predicate Same(before: Config, after: Config) {
    forall slot: Slot :: At(before, slot) == At(after, slot)
  }

  ghost predicate OnlyKey(before: Config, after: Config, scope: Scope, k: Key) {
    forall slot: Slot :: slot != Slot(scope, k) ==> At(before, slot) == At(after, slot)
  }

  /** Unmanaged keys and other scopes are untouched. */
  ghost predicate OnlyManaged(before: Config, after: Config, scope: Scope) {
    forall slot: Slot :: slot.scope != scope || !Managed(slot.key) ==> At(before, slot) == At(after, slot)
  }

  lemma NothingChanged(c: Config, scope: Scope)
    ensures OnlyManaged(c, c, scope) && Same(c, c)
  {
  }

  lemma PuttingChangesOneKey(c: Config, scope: Scope, k: Key, values: seq<string>)
    ensures var after := c[Slot(scope, k) := values]; OnlyKey(c, after, scope, k) && Stored(after, scope, k) == values
  {
  }

  predicate Matches(c: Config, scope: Scope, s: Snapshot) {
    forall k :: k in MANAGED_CONFIG_KEYS ==> Stored(c, scope, k) == Values(s, k)
  }

  predicate ConfigCarries(c: Config, scope: Scope, p: Profile) {
    forall k :: k in MANAGED_CONFIG_KEYS ==> Stored(c, scope, k) == ProfileValues(p, k)
  }

  predicate ConfigEmpty(c: Config, scope: Scope) {
    forall k :: k in MANAGED_CONFIG_KEYS ==> Stored(c, scope, k) == []
  }

  lemma ManagedKeysAreDistinct(i: nat, j: nat)
    requires i < j < |MANAGED_CONFIG_KEYS|
    ensures MANAGED_CONFIG_KEYS[i] != MANAGED_CONFIG_KEYS[j]
  {
    var keys := MANAGED_CONFIG_KEYS;
    assert keys[0] == UserName && keys[1] == UserEmail && keys[2] == GpgFormat;
    assert keys[3] == SigningKey && keys[4] == CommitSign && keys[5] == TagSign;
  }

  /** Writing back a snapshot of the managed keys undoes any change confined to them. */
  lemma RestoringUndoes(before: Config, after: Config, scope: Scope, s: Snapshot)
    requires Matches(before, scope, s) && Matches(after, scope, s) && OnlyManaged(before, after, scope)
    ensures Same(before, after)
  {
    forall slot: Slot ensures At(before, slot) == At(after, slot) {
      ManagedKeysAreListed(slot.key);
      if slot.scope == scope && Managed(slot.key) {
        assert Stored(before, scope, slot.key) == Values(s, slot.key) == Stored(after, scope, slot.key);
      }
    }
  }

  lemma EmptyIsEmpty(c: Config, scope: Scope)
    ensures Matches(c, scope, EmptyConfig()) ==> ConfigEmpty(c, scope)
  {
  }

  lemma MatchingProfileCarries(c: Config, scope: Scope, s: Snapshot, p: Profile)
    requires Matches(c, scope, s)
    ensures ConfigDrift(ProfileConfig(p), s) == {} <==> ConfigCarries(c, scope, p)
  {
    NoDriftIffCarries(p, s);
  }

  // ---- repositories that share a configuration ----

  predicate ManagedFieldsChanged(before: Profile, after: Profile) {
    || before.userName != after.userName || before.userEmail != after.userEmail
    || before.gpgFormat != after.gpgFormat || before.signingKey != after.signingKey
    || before.signCommits != after.signCommits || before.signTags != after.signTags
  }

  /** The managed fields of a profile are what is written for it, key by key. */
  lemma FieldsAreValues(p: Profile, q: Profile)
    ensures !ManagedFieldsChanged(p, q)
            <==> forall k :: k in MANAGED_CONFIG_KEYS ==> ProfileValues(p, k) == ProfileValues(q, k)
  {
    ManagedKeysAreListed(UserName);
    ManagedKeysAreListed(UserEmail);
    ManagedKeysAreListed(GpgFormat);
    ManagedKeysAreListed(SigningKey);
    ManagedKeysAreListed(CommitSign);
    ManagedKeysAreListed(TagSign);
    if forall k :: k in MANAGED_CONFIG_KEYS ==> ProfileValues(p, k) == ProfileValues(q, k) {
      assert ProfileValues(p, UserName)[0] == ProfileValues(q, UserName)[0];
      assert ProfileValues(p, UserEmail)[0] == ProfileValues(q, UserEmail)[0];
      assert ProfileValues(p, GpgFormat) == ProfileValues(q, GpgFormat);
      assert ProfileValues(p, SigningKey) == ProfileValues(q, SigningKey);
      assert ProfileValues(p, CommitSign)[0] == ProfileValues(q, CommitSign)[0];
      assert ProfileValues(p, TagSign)[0] == ProfileValues(q, TagSign)[0];
    }
  }

  /** What a scope carrying `p` says of another profile. */
  lemma CarriesOther(c: Config, scope: Scope, p: Profile, q: Profile)
    requires ConfigCarries(c, scope, p)
    ensures ConfigCarries(c, scope, q) <==> !ManagedFieldsChanged(q, p)
  {
    FieldsAreValues(q, p);
  }

  lemma EmptyCarriesNothing(c: Config, scope: Scope, q: Profile)
    requires ConfigEmpty(c, scope)
    ensures !ConfigCarries(c, scope, q)
  {
    ManagedKeysAreListed(UserName);
  }

  lemma OtherScopeKeeps(before: Config, after: Config, scope: Scope, other: Scope, q: Profile)
    requires OnlyManaged(before, after, scope) && other != scope
    ensures ConfigCarries(after, other, q) <==> ConfigCarries(before, other, q)
  {
  }

  /** A bound repository has its profile's configuration. */
  predicate Carried(stores: map<RepositoryId, StoreId>, profiles: map<ProfileId, Profile>,
                    bindings: map<RepositoryId, ProfileId>, config: Config, repo: RepositoryId)
    requires repo in bindings && bindings[repo] in profiles
  {
    ConfigCarries(config, ScopeOf(stores, repo), profiles[bindings[repo]])
  }

  ghost predicate AllCarried(stores: map<RepositoryId, StoreId>, profiles: map<ProfileId, Profile>,
                             bindings: map<RepositoryId, ProfileId>, config: Config)
  {
    forall repo :: repo in bindings ==>
      bindings[repo] in profiles && Carried(stores, profiles, bindings, config, repo)
  }

  /** Another bound repository with the configuration file of `repo`. */
  predicate Sharing(stores: map<RepositoryId, StoreId>, bindings: map<RepositoryId, ProfileId>, repo: RepositoryId,
                    other: RepositoryId)
  {
    other in bindings && other != repo && ScopeOf(stores, other) == ScopeOf(stores, repo)
  }

  /** Whoever shares the configuration of `repo` is bound to the same managed fields. */
  ghost predicate BindGuard(stores: map<RepositoryId, StoreId>, profiles: map<ProfileId, Profile>,
                            bindings: map<RepositoryId, ProfileId>, repo: RepositoryId, profile: Profile)
    requires forall other :: other in bindings ==> bindings[other] in profiles
  {
    forall other :: Sharing(stores, bindings, repo, other) ==> !ManagedFieldsChanged(profiles[bindings[other]], profile)
  }

  /** Nobody shares the configuration of `repo`. */
  ghost predicate UnbindGuard(stores: map<RepositoryId, StoreId>, bindings: map<RepositoryId, ProfileId>,
                              repo: RepositoryId)
  {
    forall other :: !Sharing(stores, bindings, repo, other)
  }

  /** After a bind, every other bound repository is as it was, unless it shares the configuration: then
      it has its profile exactly when that has the same managed fields. */
  lemma BindReachesSharers(stores: map<RepositoryId, StoreId>, before: Config, after: Config, repo: RepositoryId,
                           profile: Profile, other: RepositoryId, q: Profile)
    requires OnlyManaged(before, after, ScopeOf(stores, repo)) && ConfigCarries(after, ScopeOf(stores, repo), profile)
    ensures ConfigCarries(after, ScopeOf(stores, other), q) <==>
            if ScopeOf(stores, other) == ScopeOf(stores, repo) then !ManagedFieldsChanged(q, profile)
            else ConfigCarries(before, ScopeOf(stores, other), q)
  {
    hide ConfigCarries, OnlyManaged, ManagedFieldsChanged, ScopeOf;
    if ScopeOf(stores, other) == ScopeOf(stores, repo) {
      CarriesOther(after, ScopeOf(stores, repo), profile, q);
    } else {
      OtherScopeKeeps(before, after, ScopeOf(stores, repo), ScopeOf(stores, other), q);
    }
  }

  /** From a state in which every bound repository has its profile's configuration, a bind leads to one
      exactly when its guard holds. */
  lemma BindKeepsAllIff(stores: map<RepositoryId, StoreId>, profiles: map<ProfileId, Profile>,
                        bindings: map<RepositoryId, ProfileId>, before: Config, after: Config, repo: RepositoryId,
                        id: ProfileId)
    requires AllCarried(stores, profiles, bindings, before) && id in profiles
    requires OnlyManaged(before, after, ScopeOf(stores, repo))
    requires ConfigCarries(after, ScopeOf(stores, repo), profiles[id])
    ensures AllCarried(stores, profiles, bindings[repo := id], after)
            <==> BindGuard(stores, profiles, bindings, repo, profiles[id])
  {
    hide ConfigCarries, OnlyManaged, ManagedFieldsChanged, ScopeOf;
    var now := bindings[repo := id];
    forall other | other in bindings && other != repo
      ensures Carried(stores, profiles, now, after, other)
              <==> (Sharing(stores, bindings, repo, other) ==>
                  !ManagedFieldsChanged(profiles[bindings[other]], profiles[id]))
    {
      assert Carried(stores, profiles, bindings, before, other);
      BindReachesSharers(stores, before, after, repo, profiles[id], other, profiles[bindings[other]]);
    }
    if AllCarried(stores, profiles, now, after) {
      forall other | Sharing(stores, bindings, repo, other)
        ensures !ManagedFieldsChanged(profiles[bindings[other]], profiles[id])
      {
        assert Carried(stores, profiles, now, after, other);
      }
    }
  }

  /** The same for an unbind. */
  lemma UnbindKeepsAllIff(stores: map<RepositoryId, StoreId>, profiles: map<ProfileId, Profile>,
                          bindings: map<RepositoryId, ProfileId>, before: Config, after: Config, repo: RepositoryId)
    requires AllCarried(stores, profiles, bindings, before)
    requires OnlyManaged(before, after, ScopeOf(stores, repo)) && ConfigEmpty(after, ScopeOf(stores, repo))
    ensures AllCarried(stores, profiles, bindings - {repo}, after) <==> UnbindGuard(stores, bindings, repo)
  {
    hide ConfigCarries, ConfigEmpty, OnlyManaged, ScopeOf;
    var now := bindings - {repo};
    forall other | other in bindings && other != repo
      ensures Carried(stores, profiles, now, after, other) <==> !Sharing(stores, bindings, repo, other)
    {
      var q := profiles[bindings[other]];
      assert Carried(stores, profiles, bindings, before, other);
      if Sharing(stores, bindings, repo, other) {
        EmptyCarriesNothing(after, ScopeOf(stores, repo), q);
      } else {
        OtherScopeKeeps(before, after, ScopeOf(stores, repo), ScopeOf(stores, other), q);
      }
    }
    if AllCarried(stores, profiles, now, after) {
      forall other | other in now ensures !Sharing(stores, bindings, repo, other) {
        assert Carried(stores, profiles, now, after, other);
      }
    }
  }

  /** A main checkout bound to one profile and its linked worktree bound to another: whatever the second
      bind leaves that is right for the worktree is wrong for the checkout. */
  lemma LinkedWorktreeTakesOver(after: Config)
    requires var q := Profile("Q", "q", "q@b", None, None, false, false); ConfigCarries(after, Local("file"), q)
    ensures var p := Profile("P", "p", "p@b", None, None, false, false);
            var q := Profile("Q", "q", "q@b", None, None, false, false);
            var stores := map["main" := "file", "linked" := "file"];
            var profiles := map["p" := p, "q" := q];
            var bindings := map["main" := "p"];
            && !BindGuard(stores, profiles, bindings, "linked", q)
            && !Carried(stores, profiles, bindings["linked" := "q"], after, "main")
  {
    var p, q := Profile("P", "p", "p@b", None, None, false, false), Profile("Q", "q", "q@b", None, None, false, false);
    var stores := map["main" := "file", "linked" := "file"];
    var bindings := map["main" := "p"];
    assert "p"[0] != "q"[0];
    assert Sharing(stores, bindings, "linked", "main");
    CarriesOther(after, Local("file"), q, p);
  }

  // ---- faults ----

  /** What one external call does: what it should; nothing, and fail; or, for a configuration
      write, leave arbitrary values and report whatever it likes. */
  datatype Fault = Honest | Refuse | Scramble(left: seq<string>, reported: bool)

  ghost predicate Quiet(faults: seq<Fault>) {
    forall i :: 0 <= i < |faults| ==> faults[i].Honest?
  }

  datatype ServiceError =
    | NotFound | TrustRequired | Drifted | StillBound | CurrentGlobal | Constrained
    | Invalid(reason: ProfileError)
    | Database | Git | RollbackFailed | PostCommitRead

  // ---- what each call does when nothing fails ----

  predicate BoundAndDrifted(stores: map<RepositoryId, StoreId>, profiles: map<ProfileId, Profile>,
                            bindings: map<RepositoryId, ProfileId>, config: Config, repositoryId: RepositoryId)
  {
    && repositoryId in bindings && bindings[repositoryId] in profiles
    && !ConfigCarries(config, ScopeOf(stores, repositoryId), profiles[bindings[repositoryId]])
  }

  function BindVerdict(stores: map<RepositoryId, StoreId>, trusted: set<RepositoryId>,
                       profiles: map<ProfileId, Profile>, bindings: map<RepositoryId, ProfileId>, config: Config,
                       repositoryId: RepositoryId, profileId: ProfileId): Result<ProfileId, ServiceError>
  {
    if repositoryId !in stores then Err(NotFound)
    else if repositoryId !in trusted then Err(TrustRequired)
    else if profileId !in profiles then Err(NotFound)
    else if BoundAndDrifted(stores, profiles, bindings, config, repositoryId) then Err(Drifted)
    else Ok(profileId)
  }

  function UnbindVerdict(stores: map<RepositoryId, StoreId>, trusted: set<RepositoryId>,
                         profiles: map<ProfileId, Profile>, bindings: map<RepositoryId, ProfileId>, config: Config,
                         repositoryId: RepositoryId): Result<(), ServiceError>
  {
    if repositoryId !in stores then Err(NotFound)
    else if repositoryId !in trusted then Err(TrustRequired)
    else if BoundAndDrifted(stores, profiles, bindings, config, repositoryId) then Err(Drifted)
    else Ok(())
  }

  function UpdateVerdict(profiles: map<ProfileId, Profile>, bindings: map<RepositoryId, ProfileId>,
                         profileId: ProfileId, input: Profile): Result<Profile, ServiceError>
  {
    match ValidateProfile(input)
    case Err(reason) => Err(Invalid(reason))
    case Ok(p) =>
      if profileId !in profiles then Err(NotFound)
      else if ManagedFieldsChanged(profiles[profileId], p) && profileId in bindings.Values then Err(StillBound)
      else Ok(p)
  }

  /** The last value of each managed key, as a list of at most one. */
  function LastOnly(visible: Snapshot): Snapshot {
    map k | k in MANAGED_CONFIG_KEYS :: OptionValues(Last(Values(visible, k)))
  }

  function ImportVerdict(visible: Snapshot): Result<Option<Profile>, ServiceError> {
    match IdentityResolver.ImportGlobal(LastOnly(visible))
    case Err(reason) => Err(Invalid(reason))
    case Ok(p) => Ok(p)
  }

  /** Only the last value of each key decides what is imported. */
  lemma LastValuesDecide(visible: Snapshot)
    ensures IdentityResolver.ImportGlobal(LastOnly(visible)) == IdentityResolver.ImportGlobal(visible)
  {
    hide LastOnly;
    forall k | Managed(k) ensures Last(Values(LastOnly(visible), k)) == Last(Values(visible, k)) {
      LastOnlyKeepsLast(visible, k);
    }
    IdentityResolver.ImportReadsLast(LastOnly(visible), visible);
  }

  lemma LastOnlyKeepsLast(visible: Snapshot, k: Key)
    requires Managed(k)
    ensures Last(Values(LastOnly(visible), k)) == Last(Values(visible, k))
  {
    ManagedKeysAreListed(k);
  }

  class IdentityService {
    /** The registered repositories, each with the configuration file it has. */
    const stores: map<RepositoryId, StoreId>
    const trusted: set<RepositoryId>
    var profiles: map<ProfileId, Profile>
    var pointer: Option<ProfileId>
    var bindings: map<RepositoryId, ProfileId>
    var config: Config
    var faults: seq<Fault>

    /** The foreign keys of the database, and what validation keeps true of its rows. */
    ghost predicate Valid()
      reads this
    {
      && (forall id :: id in profiles ==> WellFormed(profiles[id]))
      && (forall repo :: repo in bindings ==> repo in stores && bindings[repo] in profiles)
      && (pointer.Some? ==> pointer.value in profiles)
    }

    constructor (stores: map<RepositoryId, StoreId>, trusted: set<RepositoryId>, config: Config, faults: seq<Fault>)
      ensures Valid()
      ensures this.stores == stores && this.trusted == trusted && this.config == config && this.faults == faults
      ensures profiles == map[] && pointer == None && bindings == map[]
    {
      this.stores := stores;
      this.trusted := trusted;
      this.config := config;
      this.faults := faults;
      profiles := map[];
      pointer := None;
      bindings := map[];
    }

    // ---- external calls ----

    method NextFault() returns (f: Fault)
      modifies this`faults
      ensures Quiet(old(faults)) ==> f.Honest? && Quiet(faults)
    {
      if faults == [] {
        f := Honest;
      } else {
        f := faults[0];
        faults := faults[1..];
      }
    }

    method DatabaseCall() returns (ok: bool)
      modifies this`faults
      ensures Quiet(old(faults)) ==> ok && Quiet(faults)
    {
      var f := NextFault();
      ok := f.Honest?;
    }

    /** One `git config` write, meant to leave `values` under one key. */
    method RunWrite(scope: Scope, k: Key, values: seq<string>) returns (accepted: bool)
      modifies this`config, this`faults
      ensures OnlyKey(old(config), config, scope, k)
      ensures Quiet(old(faults)) ==> accepted && Stored(config, scope, k) == values && Quiet(faults)
    {
      hide At;
      var f := NextFault();
      match f {
        case Honest =>
          PuttingChangesOneKey(config, scope, k, values);
          config := config[Slot(scope, k) := values];
          accepted := true;
        case Refuse =>
          accepted := false;
        case Scramble(left, reported) =>
          PuttingChangesOneKey(config, scope, k, left);
          config := config[Slot(scope, k) := left];
          accepted := reported;
      }
    }

    /** `read_values`: faithful or failed. A readback that differs spuriously from what was written
        makes its only caller fail just as a failed one does, so `None` stands for both. */
    method ReadValues(scope: Scope, k: Key) returns (r: Option<seq<string>>)
      modifies this`faults
      ensures r.Some? ==> r.value == Stored(config, scope, k)
      ensures Quiet(old(faults)) ==> r.Some? && Quiet(faults)
    {
      var f := NextFault();
      r := if f.Honest? then Some(Stored(config, scope, k)) else None;
    }

    // ---- snapshots ----

    method WriteValues(scope: Scope, k: Key, values: seq<string>) returns (written: bool)
      modifies this`config, this`faults
      ensures OnlyKey(old(config), config, scope, k)
      ensures Quiet(old(faults)) ==> written && Stored(config, scope, k) == values && Quiet(faults)
    {
      written := RunWrite(scope, k, []);
      var i := 0;
      while written && i < |values|
        invariant 0 <= i <= |values|
        invariant OnlyKey(old(config), config, scope, k)
        invariant Quiet(old(faults)) ==> written && Stored(config, scope, k) == values[..i] && Quiet(faults)
      {
        written := RunWrite(scope, k, Stored(config, scope, k) + [values[i]]);
        i := i + 1;
      }
    }

    method ReadSnapshot(scope: Scope) returns (r: Option<Snapshot>)
      modifies this`faults
      ensures r.Some? ==> Matches(config, scope, r.value)
      ensures Quiet(old(faults)) ==> r.Some? && Quiet(faults)
    {
      var s: Snapshot := map[];
      for i := 0 to |MANAGED_CONFIG_KEYS|
        invariant forall j :: 0 <= j < i ==>
            Stored(config, scope, MANAGED_CONFIG_KEYS[j]) == Values(s, MANAGED_CONFIG_KEYS[j])
        invariant Quiet(old(faults)) ==> Quiet(faults)
      {
        var values := ReadValues(scope, MANAGED_CONFIG_KEYS[i]);
        if values.None? { return None; }
        s := s[MANAGED_CONFIG_KEYS[i] := values.value];
      }
      r := Some(s);
    }

    /** Success means every managed key was read back with exactly the wanted list, whatever the
        writes reported. */
    method WriteSnapshot(scope: Scope, s: Snapshot) returns (written: bool)
      modifies this`config, this`faults
      ensures OnlyManaged(old(config), config, scope)
      ensures written ==> Matches(config, scope, s)
      ensures Quiet(old(faults)) ==> written && Quiet(faults)
    {
      for i := 0 to |MANAGED_CONFIG_KEYS|
        invariant OnlyManaged(old(config), config, scope)
        invariant forall j :: 0 <= j < i ==>
            Stored(config, scope, MANAGED_CONFIG_KEYS[j]) == Values(s, MANAGED_CONFIG_KEYS[j])
        invariant Quiet(old(faults)) ==> Quiet(faults)
      {
        var k := MANAGED_CONFIG_KEYS[i];
        ManagedKeysAreListed(k);
        forall j | 0 <= j < i ensures MANAGED_CONFIG_KEYS[j] != k { ManagedKeysAreDistinct(j, i); }
        var accepted := WriteValues(scope, k, Values(s, k));
        if !accepted { return false; }
        var actual := ReadValues(scope, k);
        if actual.None? || actual.value != Values(s, k) { return false; }
      }
      written := true;
    }

    /** `restore_target_or_error`: on success the configuration is what it was at the snapshot. */
    method Restore(scope: Scope, s: Snapshot, ghost before: Config) returns (restored: bool)
      requires Matches(before, scope, s) && OnlyManaged(before, config, scope)
      modifies this`config, this`faults
      ensures OnlyManaged(before, config, scope)
      ensures restored ==> Same(before, config)
    {
      restored := WriteSnapshot(scope, s);
      if restored { RestoringUndoes(before, config, scope, s); }
    }

    /** `apply_profile_to_target`: the snapshot to roll back to, or an error. */
    method ApplySnapshot(scope: Scope, wanted: Snapshot) returns (r: Result<Snapshot, ServiceError>)
      modifies this`config, this`faults
      ensures OnlyManaged(old(config), config, scope)
      ensures r.Ok? ==> Matches(old(config), scope, r.value) && Matches(config, scope, wanted)
      ensures r.Err? ==> r.error == Git || r.error == RollbackFailed
      ensures r == Err(Git) ==> Same(old(config), config)
      ensures Quiet(old(faults)) ==> r.Ok? && Quiet(faults)
    {
      var snapshot := ReadSnapshot(scope);
      if snapshot.None? { return Err(Git); }
      var written := WriteSnapshot(scope, wanted);
      if !written {
        var restored := Restore(scope, snapshot.value, old(config));
        return Err(if restored then Git else RollbackFailed);
      }
      r := Ok(snapshot.value);
    }

    // ---- operations ----

    method ApplyProfile(scope: Scope, profile: Profile) returns (r: Result<Snapshot, ServiceError>)
      modifies this`config, this`faults
      ensures OnlyManaged(old(config), config, scope)
      ensures r.Ok? ==> Matches(old(config), scope, r.value) && ConfigCarries(config, scope, profile)
      ensures r.Err? ==> r.error == Git || r.error == RollbackFailed
      ensures r == Err(Git) ==> Same(old(config), config)
      ensures Quiet(old(faults)) ==> r.Ok? && Quiet(faults)
    {
      ProfileConfigValues(profile);
      r := ApplySnapshot(scope, ProfileConfig(profile));
    }

    /** After a failed database call: back to `before`, or say that the rollback failed too. */
    method RollBack(scope: Scope, s: Snapshot, ghost before: Config, failure: ServiceError) returns (e: ServiceError)
      requires Matches(before, scope, s) && OnlyManaged(before, config, scope)
      modifies this`config, this`faults
      ensures OnlyManaged(before, config, scope)
      ensures e == RollbackFailed || (e == failure && Same(before, config))
    {
      var restored := Restore(scope, s, before);
      e := if restored then failure else RollbackFailed;
    }

    method CheckRepository(repositoryId: RepositoryId) returns (e: Option<ServiceError>)
      modifies this`faults
      ensures e == None || e == Some(Database) || e == Some(NotFound) || e == Some(TrustRequired)
      ensures e == None ==> repositoryId in stores && repositoryId in trusted
      ensures Quiet(old(faults)) ==>
                && Quiet(faults)
                && e == (if repositoryId !in stores then Some(NotFound)
                         else if repositoryId !in trusted then Some(TrustRequired) else None)
    {
      var ok := DatabaseCall();
      if !ok { return Some(Database); }
      if repositoryId !in stores { return Some(NotFound); }
      ok := DatabaseCall();
      if !ok { return Some(Database); }
      e := if repositoryId !in trusted then Some(TrustRequired) else None;
    }

    /** Refuses when the configuration of a bound repository was changed from outside. */
    method CheckDrift(scope: Scope, profile: Profile) returns (r: Result<Snapshot, ServiceError>)
      modifies this`faults
      ensures r.Ok? ==> ConfigCarries(config, scope, profile) && Matches(config, scope, r.value)
      ensures r.Err? ==> r.error == Git || r.error == Drifted
      ensures r == Err(Drifted) ==> !ConfigCarries(config, scope, profile)
      ensures Quiet(old(faults)) ==>
                && Quiet(faults)
                && (if ConfigCarries(config, scope, profile) then r.Ok? else r == Err(Drifted))
    {
      var actual := ReadSnapshot(scope);
      if actual.None? { return Err(Git); }
      MatchingProfileCarries(config, scope, actual.value, profile);
      r := if ConfigDrift(ProfileConfig(profile), actual.value) != {} then Err(Drifted) else Ok(actual.value);
    }

    /** What binding looks up and refuses before it writes anything. */
    method CheckBinding(repositoryId: RepositoryId, profileId: ProfileId) returns (e: Option<ServiceError>)
      requires Valid()
      modifies this`faults
      ensures e == None ==>
                && profileId in profiles && repositoryId in stores && repositoryId in trusted
                && (repositoryId in bindings ==> Carried(stores, profiles, bindings, config, repositoryId))
      ensures e == Some(Drifted) ==>
                repositoryId in bindings && !Carried(stores, profiles, bindings, config, repositoryId)
      ensures e.Some? ==> e.value != PostCommitRead && e.value != RollbackFailed
      ensures Quiet(old(faults)) ==>
                && Quiet(faults)
                && var verdict := BindVerdict(stores, trusted, profiles, bindings, config, repositoryId, profileId);
                   e == (if verdict.Err? then Some(verdict.error) else None)
    {
      hide WellFormed, ConfigCarries, Matches, At;
      var refused := CheckRepository(repositoryId);
      if refused.Some? { return refused; }
      var ok := DatabaseCall();
      if !ok { return Some(Database); }
      if profileId !in profiles { return Some(NotFound); }
      ok := DatabaseCall();
      if !ok { return Some(Database); }
      if repositoryId in bindings {
        ok := DatabaseCall();
        if !ok { return Some(Database); }
        var clean := CheckDrift(ScopeOf(stores, repositoryId), profiles[bindings[repositoryId]]);
        if clean.Err? { return Some(clean.error); }
      }
      e := None;
    }

    method BindRepository(repositoryId: RepositoryId, profileId: ProfileId) returns (r: Result<ProfileId, ServiceError>)
      requires Valid()
      modifies this`bindings, this`config, this`faults
      ensures Valid()
      ensures OnlyManaged(old(config), config, ScopeOf(stores, repositoryId))
      ensures r.Ok? || r.error == PostCommitRead ==>
                && bindings == old(bindings)[repositoryId := profileId]
                && profileId in profiles && ConfigCarries(config, ScopeOf(stores, repositoryId), profiles[profileId])
                && (old(AllCarried(stores, profiles, bindings, config)) ==>
                      (AllCarried(stores, profiles, bindings, config)
                       <==> BindGuard(stores, profiles, old(bindings), repositoryId, profiles[profileId])))
      ensures r.Ok? ==> r.value == profileId
      ensures r.Ok? || r.error == PostCommitRead ==>
                && repositoryId in stores && repositoryId in trusted
                && old(repositoryId in bindings ==> Carried(stores, profiles, bindings, config, repositoryId))
      ensures r == Err(Drifted) ==>
                old(repositoryId in bindings && !Carried(stores, profiles, bindings, config, repositoryId))
      ensures r.Err? && r.error != PostCommitRead ==> bindings == old(bindings)
      ensures r.Err? && r.error != PostCommitRead && r.error != RollbackFailed ==> Same(old(config), config)
      ensures Quiet(old(faults)) ==>
                r == BindVerdict(stores, trusted, profiles, old(bindings), old(config), repositoryId, profileId)
      ensures Quiet(old(faults)) ==>
                && (r == Err(NotFound) <==> || repositoryId !in stores
                                            || (repositoryId in trusted && profileId !in profiles))
                && (r == Err(TrustRequired) <==> repositoryId in stores && repositoryId !in trusted)
                && (r == Err(Drifted) <==>
                    && repositoryId in stores && repositoryId in trusted && profileId in profiles
                    && old(repositoryId in bindings && !Carried(stores, profiles, bindings, config, repositoryId)))
                && (r.Ok? || r.error in {NotFound, TrustRequired, Drifted})
    {
      hide WellFormed, ConfigCarries, Matches, At, AllCarried, BindGuard, ScopeOf, OnlyManaged, Same;
      NothingChanged(config, ScopeOf(stores, repositoryId));
      var refused := CheckBinding(repositoryId, profileId);
      if refused.Some? { return Err(refused.value); }
      var scope := ScopeOf(stores, repositoryId);
      var applied := ApplyProfile(scope, profiles[profileId]);
      if applied.Err? { return Err(applied.error); }
      var ok := DatabaseCall();
      if !ok {
        var failure := RollBack(scope, applied.value, old(config), Database);
        return Err(failure);
      }
      if AllCarried(stores, profiles, bindings, old(config)) {
        BindKeepsAllIff(stores, profiles, bindings, old(config), config, repositoryId, profileId);
      }
      bindings := bindings[repositoryId := profileId];
      ok := DatabaseCall();
      if !ok { return Err(PostCommitRead); }
      r := Ok(bindings[repositoryId]);
    }

    method UnbindRepository(repositoryId: RepositoryId) returns (r: Result<(), ServiceError>)
      requires Valid()
      modifies this`bindings, this`config, this`faults
      ensures Valid()
      ensures OnlyManaged(old(config), config, ScopeOf(stores, repositoryId))
      ensures r.Ok? ==> bindings == old(bindings) - {repositoryId}
      ensures r.Ok? && repositoryId in old(bindings) ==>
                && ConfigEmpty(config, ScopeOf(stores, repositoryId))
                && (old(AllCarried(stores, profiles, bindings, config)) ==>
                      (AllCarried(stores, profiles, bindings, config)
                       <==> UnbindGuard(stores, old(bindings), repositoryId)))
      ensures r.Ok? && repositoryId !in old(bindings) ==> Same(old(config), config)
      ensures r.Ok? ==>
                && repositoryId in stores && repositoryId in trusted
                && old(repositoryId in bindings ==> Carried(stores, profiles, bindings, config, repositoryId))
      ensures r == Err(Drifted) ==>
                old(repositoryId in bindings && !Carried(stores, profiles, bindings, config, repositoryId))
      ensures r.Err? ==> bindings == old(bindings)
      ensures r.Err? && r.error != RollbackFailed ==> Same(old(config), config)
      ensures Quiet(old(faults)) ==>
                r == UnbindVerdict(stores, trusted, profiles, old(bindings), old(config), repositoryId)
      ensures Quiet(old(faults)) ==>
                && (r == Err(NotFound) <==> repositoryId !in stores)
                && (r == Err(TrustRequired) <==> repositoryId in stores && repositoryId !in trusted)
                && (r == Err(Drifted) <==>
                    && repositoryId in stores && repositoryId in trusted
                    && old(repositoryId in bindings && !Carried(stores, profiles, bindings, config, repositoryId)))
                && (r.Ok? || r.error in {NotFound, TrustRequired, Drifted})
    {
      hide WellFormed, ConfigCarries, Matches, ConfigEmpty, At, AllCarried, UnbindGuard, ScopeOf, OnlyManaged, Same, Sharing, Managed;
      NothingChanged(config, ScopeOf(stores, repositoryId));
      var refused := CheckRepository(repositoryId);
      if refused.Some? { return Err(refused.value); }
      var ok := DatabaseCall();
      if !ok { return Err(Database); }
      if repositoryId !in bindings { return Ok(()); }
      ok := DatabaseCall();
      if !ok { return Err(Database); }
      var scope := ScopeOf(stores, repositoryId);
      var clean := CheckDrift(scope, profiles[bindings[repositoryId]]);
      if clean.Err? { return Err(clean.error); }
      var written := WriteSnapshot(scope, EmptyConfig());
      ok := written;
      if written { ok := DatabaseCall(); }
      if !ok {
        var failure := RollBack(scope, clean.value, old(config), if written then Database else Git);
        return Err(failure);
      }
      EmptyIsEmpty(config, scope);
      if AllCarried(stores, profiles, bindings, old(config)) {
        UnbindKeepsAllIff(stores, profiles, bindings, old(config), config, repositoryId);
      }
      bindings := bindings - {repositoryId};
      r := Ok(());
    }

    method SetGlobal(profileId: ProfileId) returns (r: Result<Profile, ServiceError>)
      requires Valid()
      modifies this`pointer, this`config, this`faults
      ensures Valid()
      ensures OnlyManaged(old(config), config, Global)
      ensures r.Ok? ==> && profileId in profiles && r.value == profiles[profileId]
                        && pointer == Some(profileId) && ConfigCarries(config, Global, profiles[profileId])
      ensures r.Err? ==> pointer == old(pointer)
      ensures r.Err? && r.error != RollbackFailed ==> Same(old(config), config)
      ensures Quiet(old(faults)) ==> (if profileId in profiles then r.Ok? else r == Err(NotFound))
    {
      hide WellFormed, ConfigCarries, Matches, At;
      var ok := DatabaseCall();
      if !ok { return Err(Database); }
      if profileId !in profiles { return Err(NotFound); }
      var profile := profiles[profileId];
      var applied := ApplyProfile(Global, profile);
      if applied.Err? { return Err(applied.error); }
      ok := DatabaseCall();
      if ok { ok := DatabaseCall(); }
      if !ok {
        var failure := RollBack(Global, applied.value, old(config), Database);
        return Err(failure);
      }
      pointer := Some(profileId);
      r := Ok(profile);
    }

    method UpdateProfile(profileId: ProfileId, input: Profile) returns (r: Result<Profile, ServiceError>)
      requires Valid()
      modifies this`profiles, this`config, this`faults
      ensures Valid()
      ensures OnlyManaged(old(config), config, Global)
      ensures r.Ok? ==> && ValidateProfile(input) == Ok(r.value) && profileId in old(profiles)
                        && profiles == old(profiles)[profileId := r.value]
      ensures r.Ok? && ManagedFieldsChanged(old(profiles)[profileId], r.value) ==> profileId !in bindings.Values
      ensures r.Ok? ==>
                if ManagedFieldsChanged(old(profiles)[profileId], r.value) && pointer == Some(profileId)
                then ConfigCarries(config, Global, r.value)
                else Same(old(config), config)
      ensures r.Err? ==> profiles == old(profiles)
      ensures r.Err? && r.error != RollbackFailed ==> Same(old(config), config)
      ensures Quiet(old(faults)) ==> r == UpdateVerdict(old(profiles), bindings, profileId, input)
      ensures Quiet(old(faults)) ==>
                && (r.Err? && r.error.Invalid? <==> ValidateProfile(input).Err?)
                && (r == Err(NotFound) <==> ValidateProfile(input).Ok? && profileId !in old(profiles))
                && (r == Err(StillBound) <==>
                    && ValidateProfile(input).Ok? && profileId in old(profiles) && profileId in bindings.Values
                    && ManagedFieldsChanged(old(profiles)[profileId], ValidateProfile(input).value))
                && (r.Ok? || r.error.Invalid? || r.error in {NotFound, StillBound})
    {
      hide ValidateProfile, WellFormed;
      var validated := ValidateProfile(input);
      if validated.Err? { return Err(Invalid(validated.error)); }
      ValidationNormalises(input);
      var profile := validated.value;
      var ok := DatabaseCall();
      if !ok { return Err(Database); }
      if profileId !in profiles { return Err(NotFound); }
      var changed := ManagedFieldsChanged(profiles[profileId], profile);
      if changed {
        ok := DatabaseCall();
        if !ok { return Err(Database); }
        if profileId in bindings.Values { return Err(StillBound); }
        ok := DatabaseCall();
        if !ok { return Err(Database); }
      }
      if changed && pointer == Some(profileId) {
        var applied := ApplyProfile(Global, profile);
        if applied.Err? { return Err(applied.error); }
        ok := DatabaseCall();
        if !ok {
          var failure := RollBack(Global, applied.value, old(config), Database);
          return Err(failure);
        }
      } else {
        ok := DatabaseCall();
        if !ok { return Err(Database); }
      }
      profiles := profiles[profileId := profile];
      r := Ok(profile);
    }

    /** Deletion relies on the `ON DELETE RESTRICT` key from bindings to profiles. */
    method DeleteProfile(profileId: ProfileId) returns (r: Result<(), ServiceError>)
      requires Valid()
      modifies this`profiles, this`faults
      ensures Valid()
      ensures r.Ok? ==> profileId in old(profiles) && profiles == old(profiles) - {profileId}
      ensures r.Err? ==> profiles == old(profiles)
      ensures Quiet(old(faults)) ==>
                r == (if pointer == Some(profileId) then Err(CurrentGlobal)
                      else if profileId in bindings.Values then Err(Constrained)
                      else if profileId !in old(profiles) then Err(NotFound)
                      else Ok(()))
    {
      var ok := DatabaseCall();
      if !ok { return Err(Database); }
      if pointer == Some(profileId) { return Err(CurrentGlobal); }
      ok := DatabaseCall();
      if !ok { return Err(Database); }
      if profileId in bindings.Values { return Err(Constrained); }
      if profileId !in profiles { return Err(NotFound); }
      profiles := profiles - {profileId};
      r := Ok(());
    }

    method CreateProfile(freshId: ProfileId, input: Profile) returns (r: Result<Profile, ServiceError>)
      requires Valid() && freshId !in profiles
      modifies this`profiles, this`faults
      ensures Valid()
      ensures r.Ok? ==> ValidateProfile(input) == Ok(r.value) && profiles == old(profiles)[freshId := r.value]
      ensures r.Err? ==> profiles == old(profiles)
      ensures Quiet(old(faults)) ==> (r.Ok? <==> ValidateProfile(input).Ok?)
    {
      var validated := ValidateProfile(input);
      if validated.Err? { return Err(Invalid(validated.error)); }
      ValidationNormalises(input);
      var ok := DatabaseCall();
      if !ok { return Err(Database); }
      profiles := profiles[freshId := validated.value];
      r := Ok(validated.value);
    }

    /** Reads the last value of each managed key as Git sees it with includes: `visible`. */
    method ReadEffectiveGlobal(visible: Snapshot) returns (r: Option<Snapshot>)
      modifies this`faults
      ensures r.Some? ==> r.value == LastOnly(visible)
      ensures Quiet(old(faults)) ==> r.Some? && Quiet(faults)
    {
      var s: Snapshot := map[];
      for i := 0 to |MANAGED_CONFIG_KEYS|
        invariant forall k :: k in s <==> k in MANAGED_CONFIG_KEYS[..i]
        invariant forall k :: k in s ==> s[k] == OptionValues(Last(Values(visible, k)))
        invariant Quiet(old(faults)) ==> Quiet(faults)
      {
        var f := NextFault();
        if !f.Honest? { return None; }
        s := s[MANAGED_CONFIG_KEYS[i] := OptionValues(Last(Values(visible, MANAGED_CONFIG_KEYS[i])))];
      }
      assert MANAGED_CONFIG_KEYS[..|MANAGED_CONFIG_KEYS|] == MANAGED_CONFIG_KEYS;
      r := Some(s);
    }

    method DecideImport(visible: Snapshot) returns (r: Result<Option<Profile>, ServiceError>)
      modifies this`faults
      ensures r.Ok? ==> r == ImportVerdict(visible)
      ensures r.Ok? && r.value.Some? ==> WellFormed(r.value.value)
      ensures Quiet(old(faults)) ==> r == ImportVerdict(visible) && Quiet(faults)
      ensures r.Ok? ==> IdentityResolver.ImportGlobal(visible) == Ok(r.value)
      ensures Quiet(old(faults)) && r.Err? ==>
                r.error.Invalid? && IdentityResolver.ImportGlobal(visible) == Err(r.error.reason)
    {
      LastValuesDecide(visible);
      var snapshot := ReadEffectiveGlobal(visible);
      if snapshot.None? { return Err(Git); }
      var imported := IdentityResolver.ImportGlobal(snapshot.value);
      if imported.Ok? && imported.value.Some? { IdentityResolver.ImportIsWellFormed(snapshot.value); }
      r := match imported case Err(reason) => Err(Invalid(reason)) case Ok(p) => Ok(p);
    }

    /** The profile row and the pointer are written in one transaction; the configuration is only
        read. Whatever goes wrong, either both are there or neither. */
    method ImportGlobalIfEmpty(freshId: ProfileId, visible: Snapshot) returns (r: Result<Option<Profile>, ServiceError>)
      requires Valid()
      modifies this`profiles, this`pointer, this`faults
      ensures Valid()
      ensures r.Ok? && r.value.Some? ==>
                && old(profiles) == map[] && IdentityResolver.ImportGlobal(visible) == Ok(r.value)
                && profiles == map[freshId := r.value.value] && pointer == Some(freshId)
      ensures r.Err? || r.value.None? ==> profiles == old(profiles) && pointer == old(pointer)
      ensures Quiet(old(faults)) ==> r == if old(profiles) != map[] then Ok(None) else ImportVerdict(visible)
      ensures Quiet(old(faults)) && old(profiles) == map[] ==>
                match IdentityResolver.ImportGlobal(visible)
                case Ok(p) => r == Ok(p)
                case Err(reason) => r == Err(Invalid(reason))
    {
      hide ImportVerdict, IdentityResolver.ImportGlobal, WellFormed;
      var ok := DatabaseCall();
      if !ok { return Err(Database); }
      if profiles != map[] { return Ok(None); }
      r := DecideImport(visible);
      if r.Ok? && r.value.Some? {
        ok := DatabaseCall();
        if !ok { return Err(Database); }
        profiles := map[freshId := r.value.value];
        pointer := Some(freshId);
      }
    }
  }
}
