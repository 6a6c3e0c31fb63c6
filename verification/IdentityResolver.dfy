/** Which identity a commit gets: the resolver's three code paths against plain Git precedence,
    and the import of an existing global identity. */
module IdentityResolver {
  import opened Wrappers
  import opened IdentityConfig
  import opened Text

  datatype Source = GlobalProfile | RepositoryProfile | SelectedProfile | ExternalGlobal | ExternalLocal

  datatype ResolveError = NotConfigured(key: Key) | InvalidBool(key: Key) | DriftFound | NoFormat | BadFormat | NoKey

  /** The six managed values of an identity. */
  datatype Identity = Identity(
    userName: string,
    userEmail: string,
    gpgFormat: Option<string>,
    signingKey: Option<string>,
    signCommits: bool,
    signTags: bool)

  datatype Effective = Effective(profile: Option<Profile>, source: Source, identity: Identity, drift: set<Key>)

  predicate Present(s: Snapshot, k: Key) { Values(s, k) != [] }

  function RequiredText(local: Snapshot, k: Key, inherited: Option<string>): Result<string, ResolveError> {
    var value := if Present(local, k) then Last(Values(local, k)) else inherited;
    match value
    case None => Err(NotConfigured(k))
    case Some(v) => if Trim(v) == "" then Err(NotConfigured(k)) else Ok(Trim(v))
  }

  function OptionalText(local: Snapshot, k: Key, inherited: Option<string>): Option<string> {
    if Present(local, k) then LastNonEmpty(Values(local, k)) else inherited
  }

  function BoolOrError(b: Option<bool>, k: Key): Result<bool, ResolveError> {
    match b case None => Err(InvalidBool(k)) case Some(v) => Ok(v)
  }

  function BoolWithGlobal(local: Snapshot, k: Key, profileValue: Option<bool>, global: Snapshot)
    : Result<bool, ResolveError>
  {
    if !Present(local, k) then
      match profileValue
      case Some(v) => Ok(v)
      case None => BoolOrError(SemanticBool(Values(global, k)), k)
    else BoolOrError(LastOptionalBool(Values(local, k)), k)
  }

  function ProfileIdentity(p: Profile): Identity {
    Identity(p.userName, p.userEmail, p.gpgFormat, p.signingKey, p.signCommits, p.signTags)
  }

  function FromProfile(p: Profile, source: Source, drift: set<Key>): Effective {
    Effective(Some(p), source, ProfileIdentity(p), drift)
  }

  /** The four fallible fields are evaluated in this order; the first error is returned. */
  function Assemble(
    userName: Result<string, ResolveError>, userEmail: Result<string, ResolveError>,
    gpgFormat: Option<string>, signingKey: Option<string>,
    signCommits: Result<bool, ResolveError>, signTags: Result<bool, ResolveError>,
    source: Source, drift: set<Key>): Result<Effective, ResolveError>
  {
    if userName.Err? then Err(userName.error)
    else if userEmail.Err? then Err(userEmail.error)
    else if signCommits.Err? then Err(signCommits.error)
    else if signTags.Err? then Err(signTags.error)
    else Ok(Effective(None, source,
                      Identity(userName.value, userEmail.value, gpgFormat, signingKey,
                               signCommits.value, signTags.value),
                      drift))
  }

  function FromExternalGlobal(global: Snapshot): Result<Effective, ResolveError> {
    Assemble(
      RequiredText(global, UserName, None),
      RequiredText(global, UserEmail, None),
      OptionalText(global, GpgFormat, None),
      OptionalText(global, SigningKey, None),
      BoolWithGlobal(global, CommitSign, None, EmptyConfig()),
      BoolWithGlobal(global, TagSign, None, EmptyConfig()),
      ExternalGlobal, {})
  }

  /** The text a scope without its own value inherits: the global profile's, else Git's global one. */
  function InheritedText(globalProfile: Option<Profile>, global: Snapshot, k: Key): Option<string> {
    match globalProfile
    case Some(p) => Last(ProfileValues(p, k))
    case None => LastNonEmpty(Values(global, k))
  }

  function InheritedFlag(globalProfile: Option<Profile>, k: Key): Option<bool> {
    match globalProfile
    case Some(p) => Some(if k == CommitSign then p.signCommits else p.signTags)
    case None => None
  }

  function OverrideDrift(globalProfile: Option<Profile>, local: Snapshot, global: Snapshot): set<Key> {
    match globalProfile
    case None => {}
    case Some(p) => set k | k in GlobalConfigDrift(ProfileConfig(p), global) && !Present(local, k)
  }

  function FromLocalOverride(globalProfile: Option<Profile>, local: Snapshot, global: Snapshot)
    : Result<Effective, ResolveError>
  {
    Assemble(
      RequiredText(local, UserName, InheritedText(globalProfile, global, UserName)),
      RequiredText(local, UserEmail, InheritedText(globalProfile, global, UserEmail)),
      OptionalText(local, GpgFormat, InheritedText(globalProfile, global, GpgFormat)),
      OptionalText(local, SigningKey, InheritedText(globalProfile, global, SigningKey)),
      BoolWithGlobal(local, CommitSign, InheritedFlag(globalProfile, CommitSign), global),
      BoolWithGlobal(local, TagSign, InheritedFlag(globalProfile, TagSign), global),
      ExternalLocal,
      OverrideDrift(globalProfile, local, global))
  }

  predicate HasLocalOverride(local: Snapshot) {
    exists k :: k in MANAGED_CONFIG_KEYS && Present(local, k)
  }

  lemma NoOverrideMeansAbsent(local: Snapshot, k: Key)
    requires !HasLocalOverride(local) && Managed(k)
    ensures !Present(local, k)
  {
    ManagedKeysAreListed(k);
  }

  /** `effective_for_repository` over one consistent view: the bound profile if any, the global
      profile if any, the local values and the global values. */
  function EffectiveForRepository(
    binding: Option<Profile>, globalProfile: Option<Profile>, local: Snapshot, global: Snapshot)
    : Result<Effective, ResolveError>
  {
    if binding.Some? then
      Ok(FromProfile(binding.value, RepositoryProfile, ConfigDrift(ProfileConfig(binding.value), local)))
    else if HasLocalOverride(local) then
      FromLocalOverride(globalProfile, local, global)
    else if globalProfile.Some? then
      Ok(FromProfile(globalProfile.value, GlobalProfile, GlobalConfigDrift(ProfileConfig(globalProfile.value), global)))
    else
      FromExternalGlobal(global)
  }

  // ---- the reference: plain Git precedence, key by key ----

  /** The value list that decides: the local one if it has any entry, else the global one. */
  function Deciding(local: Snapshot, global: Snapshot, k: Key): seq<string> {
    if Present(local, k) then Values(local, k) else Values(global, k)
  }

  /** `i` is what Git itself would use from these two scopes. */
  predicate PlainGit(i: Identity, local: Snapshot, global: Snapshot) {
    && LastNonEmpty(Deciding(local, global, UserName)) == Some(i.userName)
    && LastNonEmpty(Deciding(local, global, UserEmail)) == Some(i.userEmail)
    && LastNonEmpty(Deciding(local, global, GpgFormat)) == i.gpgFormat
    && LastNonEmpty(Deciding(local, global, SigningKey)) == i.signingKey
    && SemanticBool(Deciding(local, global, CommitSign)) == Some(i.signCommits)
    && SemanticBool(Deciding(local, global, TagSign)) == Some(i.signTags)
  }

  /** Plain Git has a usable identity at all. */
  predicate PlainGitResolves(local: Snapshot, global: Snapshot) {
    && LastNonEmpty(Deciding(local, global, UserName)).Some?
    && LastNonEmpty(Deciding(local, global, UserEmail)).Some?
    && SemanticBool(Deciding(local, global, CommitSign)).Some?
    && SemanticBool(Deciding(local, global, TagSign)).Some?
  }

  lemma TrimTwice(v: string)
    ensures Trim(Trim(v)) == Trim(v)
  {
    TrimIsTight(v);
    TrimIsTight(Trim(v));
  }

  lemma InheritedTextIsTrimmed(values: seq<string>)
    ensures var v := LastNonEmpty(values); v.Some? ==> Trim(v.value) == v.value && v.value != ""
  {
    if values != [] { TrimTwice(values[|values| - 1]); }
  }

  function TextOrError(text: Option<string>, k: Key): Result<string, ResolveError> {
    match text case None => Err(NotConfigured(k)) case Some(v) => Ok(v)
  }

  /** The text helpers compute the deciding scope's last value, whichever scope they are given. */
  lemma ExternalText(local: Snapshot, global: Snapshot, k: Key)
    ensures var plain := LastNonEmpty(Deciding(local, global, k));
            && RequiredText(local, k, LastNonEmpty(Values(global, k))) == TextOrError(plain, k)
            && OptionalText(local, k, LastNonEmpty(Values(global, k))) == plain
            && (!Present(local, k) ==> RequiredText(global, k, None) == TextOrError(plain, k))
            && (!Present(local, k) ==> OptionalText(global, k, None) == plain)
  {
    InheritedTextIsTrimmed(Values(global, k));
  }

  lemma ExternalBool(local: Snapshot, global: Snapshot, k: Key)
    requires Managed(k)
    ensures var plain := BoolOrError(SemanticBool(Deciding(local, global, k)), k);
            && BoolWithGlobal(local, k, None, global) == plain
            && (!Present(local, k) ==> BoolWithGlobal(global, k, None, EmptyConfig()) == plain)
  {
  }

  /** The result plain Git precedence gives, as an `Effective`. */
  function PlainResult(local: Snapshot, global: Snapshot, source: Source): Result<Effective, ResolveError> {
    Assemble(
      TextOrError(LastNonEmpty(Deciding(local, global, UserName)), UserName),
      TextOrError(LastNonEmpty(Deciding(local, global, UserEmail)), UserEmail),
      LastNonEmpty(Deciding(local, global, GpgFormat)),
      LastNonEmpty(Deciding(local, global, SigningKey)),
      BoolOrError(SemanticBool(Deciding(local, global, CommitSign)), CommitSign),
      BoolOrError(SemanticBool(Deciding(local, global, TagSign)), TagSign),
      source, {})
  }

  lemma PlainResultIsPlain(local: Snapshot, global: Snapshot, source: Source)
    ensures var r := PlainResult(local, global, source);
            && (r.Ok? <==> PlainGitResolves(local, global))
            && (r.Ok? ==> PlainGit(r.value.identity, local, global) && r.value.drift == {})
  {
  }

  lemma ExternalIsPlainResult(local: Snapshot, global: Snapshot)
    ensures EffectiveForRepository(None, None, local, global)
            == PlainResult(local, global, if HasLocalOverride(local) then ExternalLocal else ExternalGlobal)
  {
    ExternalText(local, global, UserName);
    ExternalText(local, global, UserEmail);
    ExternalText(local, global, GpgFormat);
    ExternalText(local, global, SigningKey);
    ExternalBool(local, global, CommitSign);
    ExternalBool(local, global, TagSign);
    if !HasLocalOverride(local) {
      forall k | Managed(k) ensures !Present(local, k) { NoOverrideMeansAbsent(local, k); }
    }
  }

  /** Without any profile, the two external paths together are plain Git: they succeed exactly when
      Git has an identity, and then return its six values, without drift. */
  lemma {:induction false} NoProfileIsPlainGit(local: Snapshot, global: Snapshot)
    ensures var r := EffectiveForRepository(None, None, local, global);
            && (r.Ok? <==> PlainGitResolves(local, global))
            && (r.Ok? ==> PlainGit(r.value.identity, local, global) && r.value.drift == {})
  {
    ExternalIsPlainResult(local, global);
    PlainResultIsPlain(local, global, if HasLocalOverride(local) then ExternalLocal else ExternalGlobal);
  }

  predicate TextKey(k: Key) { k == UserName || k == UserEmail || k == GpgFormat || k == SigningKey }

  lemma ProfileTextIsTrimmed(p: Profile, k: Key)
    requires WellFormed(p) && TextKey(k)
    ensures LastNonEmpty(ProfileValues(p, k)) == Last(ProfileValues(p, k))
  {
    match Last(ProfileValues(p, k))
    case None =>
    case Some(v) => TrimIsTight(v);
  }

  lemma NoUnboundDriftMeansAgreement(p: Profile, local: Snapshot, global: Snapshot, k: Key)
    requires Managed(k) && !Present(local, k)
    requires var r := EffectiveForRepository(None, Some(p), local, global); r.Ok? && r.value.drift == {}
    ensures Agrees(global, p, k)
  {
    GlobalDriftIffDisagrees(p, global, k);
    assert k !in EffectiveForRepository(None, Some(p), local, global).value.drift;
  }

  lemma SameParts(p: Profile, local: Snapshot, global: Snapshot)
    requires forall k | k == UserName || k == UserEmail ::
               RequiredText(local, k, InheritedText(Some(p), global, k))
                   == RequiredText(local, k, InheritedText(None, global, k))
    requires forall k | k == GpgFormat || k == SigningKey ::
               OptionalText(local, k, InheritedText(Some(p), global, k))
                   == OptionalText(local, k, InheritedText(None, global, k))
    requires forall k | k == CommitSign || k == TagSign ::
               BoolWithGlobal(local, k, InheritedFlag(Some(p), k), global)
                   == BoolWithGlobal(local, k, InheritedFlag(None, k), global)
    ensures OverrideDrift(Some(p), local, global) == {} ==>
              FromLocalOverride(Some(p), local, global) == FromLocalOverride(None, local, global)
  {
  }

  /** A profile that agrees wherever the local scope is silent adds nothing but its drift report. */
  lemma AgreeingProfileAddsNothing(p: Profile, local: Snapshot, global: Snapshot)
    requires WellFormed(p)
    requires forall k :: Managed(k) && !Present(local, k) ==> Agrees(global, p, k)
    ensures OverrideDrift(Some(p), local, global) == {} ==>
              FromLocalOverride(Some(p), local, global) == FromLocalOverride(None, local, global)
  {
    forall k | TextKey(k) && !Present(local, k)
      ensures LastNonEmpty(Values(global, k)) == Last(ProfileValues(p, k))
    {
      ProfileTextIsTrimmed(p, k);
    }
    SameParts(p, local, global);
  }

  lemma InheritanceAgrees(p: Profile, local: Snapshot, global: Snapshot)
    requires HasLocalOverride(local)
    requires var r := EffectiveForRepository(None, Some(p), local, global); r.Ok? && r.value.drift == {}
    ensures forall k :: Managed(k) && !Present(local, k) ==> Agrees(global, p, k)
    ensures OverrideDrift(Some(p), local, global) == {}
  {
    forall k | Managed(k) && !Present(local, k) ensures Agrees(global, p, k) {
      NoUnboundDriftMeansAgreement(p, local, global, k);
    }
  }

  /** Under a local override, a drift-free global profile may be erased. */
  lemma OverrideWithoutDrift(p: Profile, local: Snapshot, global: Snapshot)
    requires WellFormed(p) && HasLocalOverride(local)
    requires var r := EffectiveForRepository(None, Some(p), local, global); r.Ok? && r.value.drift == {}
    ensures EffectiveForRepository(None, Some(p), local, global) == EffectiveForRepository(None, None, local, global)
  {
    InheritanceAgrees(p, local, global);
    AgreeingProfileAddsNothing(p, local, global);
  }

  lemma GlobalTextIsProfileText(p: Profile, global: Snapshot, k: Key)
    requires WellFormed(p) && TextKey(k) && Agrees(global, p, k)
    ensures LastNonEmpty(Values(global, k)) == Last(ProfileValues(p, k))
  {
    ProfileTextIsTrimmed(p, k);
  }

  /** Without a local override, a drift-free global profile is the plain Git identity. */
  lemma InheritedWithoutDrift(p: Profile, local: Snapshot, global: Snapshot)
    requires WellFormed(p) && !HasLocalOverride(local)
    requires EffectiveForRepository(None, Some(p), local, global).value.drift == {}
    ensures PlainGit(ProfileIdentity(p), local, global)
  {
    hide Trim, Lower, LastNonEmpty, GlobalConfigDrift, ConfigDrift, WellFormed;
    forall k | Managed(k) ensures !Present(local, k) && Agrees(global, p, k) {
      NoOverrideMeansAbsent(local, k);
      NoUnboundDriftMeansAgreement(p, local, global, k);
    }
    GlobalTextIsProfileText(p, global, UserName);
    GlobalTextIsProfileText(p, global, UserEmail);
    GlobalTextIsProfileText(p, global, GpgFormat);
    GlobalTextIsProfileText(p, global, SigningKey);
  }

  lemma PlainGitIsUnique(i: Identity, j: Identity, local: Snapshot, global: Snapshot)
    requires PlainGit(i, local, global) && PlainGit(j, local, global)
    ensures i == j
  {
  }

  /** For an unbound repository: whenever the resolver succeeds under a global profile and reports
      no drift, erasing the profile changes none of the six values. */
  lemma {:induction false} UnboundWithoutDriftIsPlainGit(p: Profile, local: Snapshot, global: Snapshot)
    requires WellFormed(p)
    requires var r := EffectiveForRepository(None, Some(p), local, global); r.Ok? && r.value.drift == {}
    ensures var r := EffectiveForRepository(None, Some(p), local, global);
            var erased := EffectiveForRepository(None, None, local, global);
            erased.Ok? && erased.value.identity == r.value.identity && PlainGit(r.value.identity, local, global)
  {
    NoProfileIsPlainGit(local, global);
    if HasLocalOverride(local) {
      OverrideWithoutDrift(p, local, global);
    } else {
      InheritedWithoutDrift(p, local, global);
      var effective := EffectiveForRepository(None, None, local, global).value;
      PlainGitIsUnique(ProfileIdentity(p), effective.identity, local, global);
    }
  }

  /** For a bound repository without drift: name, email and both signing flags are plain Git's; the
      signing format and key are too exactly when a profile that leaves one unset does not meet a
      global value for it, because an empty local list lets Git fall through to the global scope. */
  lemma BoundWithoutDrift(p: Profile, globalProfile: Option<Profile>, local: Snapshot, global: Snapshot)
    requires WellFormed(p)
    requires EffectiveForRepository(Some(p), globalProfile, local, global).value.drift == {}
    ensures var i := EffectiveForRepository(Some(p), globalProfile, local, global).value.identity;
            && LastNonEmpty(Deciding(local, global, UserName)) == Some(i.userName)
            && LastNonEmpty(Deciding(local, global, UserEmail)) == Some(i.userEmail)
            && SemanticBool(Deciding(local, global, CommitSign)) == Some(i.signCommits)
            && SemanticBool(Deciding(local, global, TagSign)) == Some(i.signTags)
            && (PlainGit(i, local, global) <==>
                && (p.gpgFormat.None? ==> LastNonEmpty(Values(global, GpgFormat)).None?)
                && (p.signingKey.None? ==> LastNonEmpty(Values(global, SigningKey)).None?))
  {
    hide Trim, Lower, LastNonEmpty, SemanticBool, ConfigDrift, WellFormed;
    NoDriftIffCarries(p, local);
    SpellingIsABool(p.signCommits);
    SpellingIsABool(p.signTags);
    forall k | Managed(k) ensures Values(local, k) == ProfileValues(p, k) { ManagedKeysAreListed(k); }
    ProfileTextIsTrimmed(p, UserName);
    ProfileTextIsTrimmed(p, UserEmail);
    ProfileTextIsTrimmed(p, GpgFormat);
    ProfileTextIsTrimmed(p, SigningKey);
  }

  /** The gap is real: an unsigned profile bound without drift, under a global `gpg.format`. */
  lemma BoundProfileDoesNotMaskGlobalFormat() returns (p: Profile, local: Snapshot, global: Snapshot)
    ensures WellFormed(p)
    ensures var r := EffectiveForRepository(Some(p), None, local, global);
            r.Ok? && r.value.drift == {} && !PlainGit(r.value.identity, local, global)
  {
    p := Profile("A", "a", "a@b", None, None, false, false);
    local := ProfileConfig(p);
    global := map[GpgFormat := ["ssh"]];
    ProfileConfigValues(p);
    NoDriftIffCarries(p, local);
    TrimIsTight("ssh");
    assert Values(local, GpgFormat) == [] && Deciding(local, global, GpgFormat) == ["ssh"];
  }

  // ---- drift, and identities in spite of it ----

  /** Which keys drift: under a global profile those the repository leaves to a global scope that
      disagrees with it, whether or not it sets others itself; for a bound repository those whose whole
      lists are not its profile's; without a profile none. */
  lemma {:induction false} DriftIff(binding: Option<Profile>, globalProfile: Option<Profile>, local: Snapshot,
                                    global: Snapshot, k: Key)
    requires EffectiveForRepository(binding, globalProfile, local, global).Ok?
    ensures k in EffectiveForRepository(binding, globalProfile, local, global).value.drift <==>
            && Managed(k)
            && match (binding, globalProfile)
               case (Some(p), _) => Values(local, k) != ProfileValues(p, k)
               case (None, Some(p)) => !Present(local, k) && !Agrees(global, p, k)
               case (None, None) => false
  {
    hide Trim, Lower, LastNonEmpty, SemanticBool, LastOptionalBool, RequiredText, OptionalText, BoolWithGlobal;
    hide EquivalentGlobally, Agrees, ProfileConfig;
    ManagedKeysAreListed(k);
    if binding.Some? {
      ProfileConfigValues(binding.value);
    } else if globalProfile.Some? {
      hide GlobalConfigDrift;
      DriftIsManaged(globalProfile.value, global, k);
      if Managed(k) {
        GlobalDriftIffDisagrees(globalProfile.value, global, k);
        if !HasLocalOverride(local) { NoOverrideMeansAbsent(local, k); }
      }
    }
  }

  lemma DriftIsManaged(p: Profile, global: Snapshot, k: Key)
    ensures k in GlobalConfigDrift(ProfileConfig(p), global) ==> Managed(k)
  {
    ManagedKeysAreListed(k);
  }

  lemma ProfileIsPlain(p: Profile, k: Key)
    requires WellFormed(p) && Managed(k)
    ensures Values(ProfileConfig(p), k) == ProfileValues(p, k)
    ensures TextKey(k) ==> LastNonEmpty(Values(ProfileConfig(p), k)) == InheritedText(Some(p), map[], k)
    ensures k == CommitSign || k == TagSign ==>
              SemanticBool(Values(ProfileConfig(p), k)) == InheritedFlag(Some(p), k)
  {
    ManagedKeysAreListed(k);
    ProfileConfigValues(p);
    if TextKey(k) { ProfileTextIsTrimmed(p, k); }
    SpellingIsABool(p.signCommits);
    SpellingIsABool(p.signTags);
  }

  lemma LayeredText(p: Profile, local: Snapshot, global: Snapshot, k: Key)
    requires WellFormed(p) && TextKey(k)
    ensures var plain := LastNonEmpty(Deciding(local, ProfileConfig(p), k));
            && OptionalText(local, k, InheritedText(Some(p), global, k)) == plain
            && (k == UserName || k == UserEmail ==>
                  RequiredText(local, k, InheritedText(Some(p), global, k)) == TextOrError(plain, k))
  {
    hide ProfileConfig, Lower;
    ProfileIsPlain(p, k);
    if k == UserName { TrimIsTight(p.userName); }
    if k == UserEmail { TrimIsTight(p.userEmail); }
  }

  lemma LayeredFlag(p: Profile, local: Snapshot, global: Snapshot, k: Key)
    requires WellFormed(p) && (k == CommitSign || k == TagSign)
    ensures BoolWithGlobal(local, k, InheritedFlag(Some(p), k), global)
            == BoolOrError(SemanticBool(Deciding(local, ProfileConfig(p), k)), k)
  {
    hide ProfileConfig, Lower, Trim;
    ProfileIsPlain(p, k);
  }

  /** Under a global profile, drift or not, the six values are what Git would use if the profile were the
      global configuration, and the resolver fails exactly when that gives no usable identity. */
  lemma {:induction false} UnboundIsLayered(p: Profile, local: Snapshot, global: Snapshot)
    requires WellFormed(p)
    ensures var r := EffectiveForRepository(None, Some(p), local, global);
            && (r.Ok? <==> PlainGitResolves(local, ProfileConfig(p)))
            && (r.Ok? ==> PlainGit(r.value.identity, local, ProfileConfig(p)))
            && (r.Ok? && !HasLocalOverride(local) ==> r.value.identity == ProfileIdentity(p))
  {
    hide LastNonEmpty, SemanticBool, Trim, Lower, WellFormed, ProfileConfig, OverrideDrift, GlobalConfigDrift;
    if HasLocalOverride(local) {
      hide RequiredText, OptionalText, BoolWithGlobal, InheritedText, InheritedFlag, Deciding, HasLocalOverride;
      LayeredText(p, local, global, UserName);
      LayeredText(p, local, global, UserEmail);
      LayeredText(p, local, global, GpgFormat);
      LayeredText(p, local, global, SigningKey);
      LayeredFlag(p, local, global, CommitSign);
      LayeredFlag(p, local, global, TagSign);
    } else {
      forall k | Managed(k) ensures !Present(local, k) {
        NoOverrideMeansAbsent(local, k);
      }
      forall k | Managed(k) ensures Deciding(local, ProfileConfig(p), k) == Values(ProfileConfig(p), k) {}
      ProfileIsPlain(p, UserName);
      ProfileIsPlain(p, UserEmail);
      ProfileIsPlain(p, GpgFormat);
      ProfileIsPlain(p, SigningKey);
      ProfileIsPlain(p, CommitSign);
      ProfileIsPlain(p, TagSign);
    }
  }

  // ---- commit identity ----

  /** `resolve_commit_identity` up to the signing-tool lookup. */
  function ResolveCommitIdentity(
    selected: Option<Profile>, binding: Option<Profile>, globalProfile: Option<Profile>,
    local: Snapshot, global: Snapshot): Result<Identity, ResolveError>
  {
    var effective :=
      if selected.Some? then Ok(FromProfile(selected.value, SelectedProfile, {}))
      else EffectiveForRepository(binding, globalProfile, local, global);
    if effective.Err? then Err(effective.error)
    else if effective.value.drift != {} then Err(DriftFound)
    else
      var i := effective.value.identity;
      if i.signCommits && i.gpgFormat.None? then Err(NoFormat)
      else if i.signCommits && !SupportedFormat(i.gpgFormat.value) then Err(BadFormat)
      else if i.signCommits && i.signingKey.None? then Err(NoKey)
      else Ok(i)
  }

  /** What plain Git would use, apart from the signing format and key. */
  predicate PlainButForSigningText(i: Identity, local: Snapshot, global: Snapshot) {
    && LastNonEmpty(Deciding(local, global, UserName)) == Some(i.userName)
    && LastNonEmpty(Deciding(local, global, UserEmail)) == Some(i.userEmail)
    && SemanticBool(Deciding(local, global, CommitSign)) == Some(i.signCommits)
    && SemanticBool(Deciding(local, global, TagSign)) == Some(i.signTags)
  }

  /** A resolved commit identity never signs without a supported format and a key. A selected profile is
      used as it is; without one, an unbound repository commits exactly as Git itself would, and a bound
      one too, wholly so when it signs anything, or when what its profile leaves unset is not set
      globally. */
  lemma {:induction false} CommitIdentityIsSafe(selected: Option<Profile>, binding: Option<Profile>,
                                                globalProfile: Option<Profile>, local: Snapshot, global: Snapshot)
    requires selected.Some? ==> WellFormed(selected.value)
    requires binding.Some? ==> WellFormed(binding.value)
    requires globalProfile.Some? ==> WellFormed(globalProfile.value)
    requires ResolveCommitIdentity(selected, binding, globalProfile, local, global).Ok?
    ensures var i := ResolveCommitIdentity(selected, binding, globalProfile, local, global).value;
            && (i.signCommits ==> i.gpgFormat.Some? && SupportedFormat(i.gpgFormat.value) && i.signingKey.Some?)
            && (selected.Some? ==> i == ProfileIdentity(selected.value))
            && (selected.None? && binding.None? ==> PlainGit(i, local, global))
            && (selected.None? && binding.Some? ==>
                  && i == ProfileIdentity(binding.value) && PlainButForSigningText(i, local, global)
                  && (i.signCommits || i.signTags ==> PlainGit(i, local, global))
                  && (PlainGit(i, local, global) <==>
                      && (i.gpgFormat.None? ==> LastNonEmpty(Values(global, GpgFormat)).None?)
                      && (i.signingKey.None? ==> LastNonEmpty(Values(global, SigningKey)).None?)))
  {
    hide LastNonEmpty, SemanticBool, PlainGit, ConfigDrift, GlobalConfigDrift;
    if selected.None? {
      if binding.Some? {
        BoundWithoutDrift(binding.value, globalProfile, local, global);
      } else if globalProfile.Some? {
        UnboundWithoutDriftIsPlainGit(globalProfile.value, local, global);
      } else {
        NoProfileIsPlainGit(local, global);
      }
    }
  }

  /** What the values of a repository that is not bound rest on: the global profile's configuration if
      there is one, else the global one. */
  function Base(globalProfile: Option<Profile>, global: Snapshot): Snapshot {
    if globalProfile.Some? then ProfileConfig(globalProfile.value) else global
  }

  /** Signing is off, or there is a supported format and a key. */
  predicate SigningUsable(local: Snapshot, base: Snapshot) {
    var format := LastNonEmpty(Deciding(local, base, GpgFormat));
    SemanticBool(Deciding(local, base, CommitSign)) == Some(true) ==>
      && format.Some? && format.value in {"openpgp", "ssh", "x509"}
      && LastNonEmpty(Deciding(local, base, SigningKey)).Some?
  }

  /** The global scope agrees with the global profile wherever the repository leaves a value to it. */
  ghost predicate GlobalAgrees(globalProfile: Option<Profile>, local: Snapshot, global: Snapshot) {
    globalProfile.Some? ==> forall k :: Managed(k) && !Present(local, k) ==> Agrees(global, globalProfile.value, k)
  }

  ghost predicate MayCommit(selected: Option<Profile>, binding: Option<Profile>, globalProfile: Option<Profile>,
                            local: Snapshot, global: Snapshot)
  {
    || selected.Some?
    || (binding.Some? && Carries(local, binding.value))
    || (&& binding.None? && GlobalAgrees(globalProfile, local, global)
        && PlainGitResolves(local, Base(globalProfile, global)) && SigningUsable(local, Base(globalProfile, global)))
  }

  lemma BoundResolves(p: Profile, globalProfile: Option<Profile>, local: Snapshot, global: Snapshot)
    requires WellFormed(p)
    ensures ResolveCommitIdentity(None, Some(p), globalProfile, local, global)
            == if Carries(local, p) then Ok(ProfileIdentity(p)) else Err(DriftFound)
  {
    hide ConfigDrift;
    NoDriftIffCarries(p, local);
  }

  lemma UnboundDriftIff(globalProfile: Option<Profile>, local: Snapshot, global: Snapshot)
    requires EffectiveForRepository(None, globalProfile, local, global).Ok?
    ensures EffectiveForRepository(None, globalProfile, local, global).value.drift == {} <==>
            GlobalAgrees(globalProfile, local, global)
  {
    hide EffectiveForRepository, Agrees;
    var drift := EffectiveForRepository(None, globalProfile, local, global).value.drift;
    forall k ensures k in drift <==> && Managed(k) && globalProfile.Some? && !Present(local, k)
                                     && !Agrees(global, globalProfile.value, k)
    {
      DriftIff(None, globalProfile, local, global, k);
    }
  }

  lemma UnboundResolves(globalProfile: Option<Profile>, local: Snapshot, global: Snapshot)
    requires globalProfile.Some? ==> WellFormed(globalProfile.value)
    ensures var r := EffectiveForRepository(None, globalProfile, local, global);
            var base := Base(globalProfile, global);
            (r.Ok? <==> PlainGitResolves(local, base)) && (r.Ok? ==> PlainGit(r.value.identity, local, base))
  {
    hide EffectiveForRepository, PlainGitResolves, PlainGit, WellFormed;
    if globalProfile.Some? {
      UnboundIsLayered(globalProfile.value, local, global);
    } else {
      NoProfileIsPlainGit(local, global);
    }
  }

  /** When a commit gets an identity, and which, for all three sources of it; and when it is refused
      because the configuration was changed from outside. */
  lemma {:induction false} CommitResolvesIff(selected: Option<Profile>, binding: Option<Profile>,
                                             globalProfile: Option<Profile>, local: Snapshot, global: Snapshot)
    requires selected.Some? ==> WellFormed(selected.value)
    requires binding.Some? ==> WellFormed(binding.value)
    requires globalProfile.Some? ==> WellFormed(globalProfile.value)
    ensures var r := ResolveCommitIdentity(selected, binding, globalProfile, local, global);
            && (r.Ok? <==> MayCommit(selected, binding, globalProfile, local, global))
            && (r.Ok? ==> if selected.Some? then r.value == ProfileIdentity(selected.value)
                          else if binding.Some? then r.value == ProfileIdentity(binding.value)
                          else PlainGit(r.value, local, Base(globalProfile, global)))
            && (r == Err(DriftFound) <==>
                && selected.None?
                && (if binding.Some? then !Carries(local, binding.value)
                    else && PlainGitResolves(local, Base(globalProfile, global))
                         && !GlobalAgrees(globalProfile, local, global)))
  {
    hide PlainGitResolves, Carries, GlobalAgrees, SigningUsable, PlainGit, Base;
    if selected.None? {
      hide ResolveCommitIdentity, WellFormed;
      if binding.Some? {
        BoundResolves(binding.value, globalProfile, local, global);
      } else {
        UnboundCommits(globalProfile, local, global);
      }
    }
  }

  lemma UnboundCommits(globalProfile: Option<Profile>, local: Snapshot, global: Snapshot)
    requires globalProfile.Some? ==> WellFormed(globalProfile.value)
    ensures var r := ResolveCommitIdentity(None, None, globalProfile, local, global);
            var base := Base(globalProfile, global);
            && (r.Ok? <==> && GlobalAgrees(globalProfile, local, global)
                           && PlainGitResolves(local, base) && SigningUsable(local, base))
            && (r.Ok? ==> PlainGit(r.value, local, base))
            && (r == Err(DriftFound) <==> PlainGitResolves(local, base) && !GlobalAgrees(globalProfile, local, global))
  {
    hide PlainGitResolves, GlobalAgrees, LastNonEmpty, SemanticBool, Deciding, Base, EffectiveForRepository, WellFormed;
    UnboundResolves(globalProfile, local, global);
    EffectiveErrs(globalProfile, local, global);
    if EffectiveForRepository(None, globalProfile, local, global).Ok? {
      UnboundDriftIff(globalProfile, local, global);
    }
  }

  lemma EffectiveErrs(globalProfile: Option<Profile>, local: Snapshot, global: Snapshot)
    ensures EffectiveForRepository(None, globalProfile, local, global) != Err(DriftFound)
  {
    hide LastNonEmpty, SemanticBool, LastOptionalBool, Trim, GlobalConfigDrift, OverrideDrift, InheritedText;
  }

  // ---- import ----

  /** `import_global_if_empty` after the emptiness check: `None` when there is no identity. */
  function ImportGlobal(s: Snapshot): Result<Option<Profile>, ProfileError> {
    var name := LastNonEmpty(Values(s, UserName));
    var email := LastNonEmpty(Values(s, UserEmail));
    if name.None? || email.None? then Ok(None)
    else
      var format := LastNonEmpty(Values(s, GpgFormat));
      var key := LastNonEmpty(Values(s, SigningKey));
      var commits := LastBool(Values(s, CommitSign));
      var tags := LastBool(Values(s, TagSign));
      var implicitSigning := (commits || tags) && (format.None? || key.None?);
      var unsafe := implicitSigning || (format.None? && key.Some?);
      var input := Profile(
        name.value, name.value, email.value,
        if unsafe && format.None? && key.Some? then Some("openpgp") else format, key,
        !unsafe && commits, !unsafe && tags);
      match ValidateProfile(input)
      case Err(e) => Err(e)
      case Ok(p) => Ok(Some(p))
  }

  predicate TightLast(s: Snapshot, k: Key) {
    match Last(Values(s, k)) case None => true case Some(v) => Tight(v) && v != ""
  }

  /** A signing flag reads the same with and without trimming, and is well formed. */
  predicate SteadyBool(s: Snapshot, k: Key) {
    SemanticBool(Values(s, k)) == Some(LastBool(Values(s, k)))
  }

  /** No key without a format, and no signing without both. */
  predicate ExplicitSigning(s: Snapshot) {
    && (Present(s, SigningKey) ==> Present(s, GpgFormat))
    && (LastBool(Values(s, CommitSign)) || LastBool(Values(s, TagSign)) ==>
          Present(s, GpgFormat) && Present(s, SigningKey))
  }

  lemma TrueWordsHaveNoBlanks(v: string)
    ensures TrueWord(Lower(v)) ==> Tight(v) && !FalseWord(Lower(v))
  {
    if TrueWord(Lower(v)) {
      assert LowerChar(v[0]) == Lower(v)[0];
      assert LowerChar(v[|v| - 1]) == Lower(v)[|v| - 1];
    }
  }

  /** An untrimmed "true" is one the trimming reader accepts too. */
  lemma LastBoolIsSemantic(values: seq<string>)
    ensures LastBool(values) ==> SemanticBool(values) == Some(true)
  {
    if values != [] {
      TrueWordsHaveNoBlanks(values[|values| - 1]);
      TrimIsTight(values[|values| - 1]);
    }
  }

  lemma LastNonEmptyWhenTight(s: Snapshot, k: Key)
    ensures TightLast(s, k) <==> Last(Values(s, k)) == LastNonEmpty(Values(s, k))
  {
    match Last(Values(s, k))
    case None =>
    case Some(v) => TrimIsTight(v);
  }

  /** What import stores, field by field. */
  lemma ImportedFields(s: Snapshot)
    requires ImportGlobal(s).Ok? && ImportGlobal(s).value.Some?
    ensures var p := ImportGlobal(s).value.value;
            var format := LastNonEmpty(Values(s, GpgFormat));
            var key := LastNonEmpty(Values(s, SigningKey));
            var commits := LastBool(Values(s, CommitSign));
            var tags := LastBool(Values(s, TagSign));
            var unsafe := ((commits || tags) && (format.None? || key.None?)) || (format.None? && key.Some?);
            && Some(p.userName) == LastNonEmpty(Values(s, UserName))
            && Some(p.userEmail) == LastNonEmpty(Values(s, UserEmail))
            && p.signingKey == key
            && p.gpgFormat == (if format == Some("none") then None
                               else if format.None? && key.Some? then Some("openpgp") else format)
            && p.signCommits == (!unsafe && commits) && p.signTags == (!unsafe && tags)
  {
    forall k | k == UserName || k == UserEmail || k == GpgFormat || k == SigningKey
      ensures var v := LastNonEmpty(Values(s, k)); v.Some? ==> Trim(v.value) == v.value && v.value != ""
    {
      InheritedTextIsTrimmed(Values(s, k));
    }
    SupportedFormatsAreTight("openpgp");
    TrimIsTight("openpgp");
  }

  lemma NoGlobalDriftIffAgrees(p: Profile, s: Snapshot)
    ensures GlobalConfigDrift(ProfileConfig(p), s) == {} <==> forall k :: Managed(k) ==> Agrees(s, p, k)
  {
    forall k | Managed(k) ensures k in GlobalConfigDrift(ProfileConfig(p), s) <==> !Agrees(s, p, k) {
      GlobalDriftIffDisagrees(p, s, k);
    }
    forall k | k in GlobalConfigDrift(ProfileConfig(p), s) ensures Managed(k) && !Agrees(s, p, k) {
      ManagedKeysAreListed(k);
    }
  }

  /** The four text keys agree exactly when they are trimmed, the format is not "none", and a key
      comes with a format. */
  lemma ImportedTextAgrees(s: Snapshot)
    requires ImportGlobal(s).Ok? && ImportGlobal(s).value.Some?
    ensures var p := ImportGlobal(s).value.value;
            (&& Agrees(s, p, UserName) && Agrees(s, p, UserEmail)
             && Agrees(s, p, GpgFormat) && Agrees(s, p, SigningKey)) <==>
            && TightLast(s, UserName) && TightLast(s, UserEmail) && TightLast(s, GpgFormat) && TightLast(s, SigningKey)
            && LastNonEmpty(Values(s, GpgFormat)) != Some("none")
            && (Present(s, SigningKey) ==> Present(s, GpgFormat))
  {
    var p := ImportGlobal(s).value.value;
    ImportedFields(s);
    LastNonEmptyWhenTight(s, UserName);
    LastNonEmptyWhenTight(s, UserEmail);
    LastNonEmptyWhenTight(s, GpgFormat);
    LastNonEmptyWhenTight(s, SigningKey);
    assert Agrees(s, p, UserName) <==> TightLast(s, UserName);
    assert Agrees(s, p, UserEmail) <==> TightLast(s, UserEmail);
    assert Agrees(s, p, SigningKey) <==> TightLast(s, SigningKey);
  }

  /** The two signing flags agree exactly when both read the same either way and, given the format
      and key the profile got, signing was explicit. */
  lemma ImportedFlagsAgree(s: Snapshot)
    requires ImportGlobal(s).Ok? && ImportGlobal(s).value.Some?
    ensures var p := ImportGlobal(s).value.value;
            var format := LastNonEmpty(Values(s, GpgFormat));
            var key := LastNonEmpty(Values(s, SigningKey));
            Agrees(s, p, CommitSign) && Agrees(s, p, TagSign) <==>
            && SteadyBool(s, CommitSign) && SteadyBool(s, TagSign)
            && (LastBool(Values(s, CommitSign)) || LastBool(Values(s, TagSign)) ==> format.Some? && key.Some?)
  {
    ImportedFields(s);
    LastBoolIsSemantic(Values(s, CommitSign));
    LastBoolIsSemantic(Values(s, TagSign));
  }

  /** When the imported profile matches the configuration it came from: exactly when every text is
      trimmed and non-empty, the format is not "none", both flags read the same with and without
      trimming, and signing is explicit. */
  lemma ImportDriftFreeIff(s: Snapshot)
    requires ImportGlobal(s).Ok? && ImportGlobal(s).value.Some?
    ensures GlobalConfigDrift(ProfileConfig(ImportGlobal(s).value.value), s) == {} <==>
            && TightLast(s, UserName) && TightLast(s, UserEmail) && TightLast(s, GpgFormat) && TightLast(s, SigningKey)
            && LastNonEmpty(Values(s, GpgFormat)) != Some("none")
            && SteadyBool(s, CommitSign) && SteadyBool(s, TagSign)
            && ExplicitSigning(s)
  {
    var p := ImportGlobal(s).value.value;
    NoGlobalDriftIffAgrees(p, s);
    ImportedTextAgrees(s);
    ImportedFlagsAgree(s);
  }

  lemma ReadsLast(values: seq<string>, others: seq<string>)
    requires Last(values) == Last(others)
    ensures LastNonEmpty(values) == LastNonEmpty(others) && LastBool(values) == LastBool(others)
  {
  }

  lemma ImportReadsLast(s: Snapshot, t: Snapshot)
    requires forall k :: Managed(k) ==> Last(Values(s, k)) == Last(Values(t, k))
    ensures ImportGlobal(s) == ImportGlobal(t)
  {
    hide LastNonEmpty, LastBool, ValidateProfile, Values, Last;
    ReadsLast(Values(s, UserName), Values(t, UserName));
    ReadsLast(Values(s, UserEmail), Values(t, UserEmail));
    ReadsLast(Values(s, GpgFormat), Values(t, GpgFormat));
    ReadsLast(Values(s, SigningKey), Values(t, SigningKey));
    ReadsLast(Values(s, CommitSign), Values(t, CommitSign));
    ReadsLast(Values(s, TagSign), Values(t, TagSign));
  }

  /** When there is something to import, and when it is refused: only without a name or an address is there
      nothing, and otherwise the values must be acceptable as a profile's; format "none" is refused with a
      key, while signing without a format or a key is imported as no signing. */
  lemma {:induction false} ImportHappensIff(s: Snapshot)
    ensures var name, email := LastNonEmpty(Values(s, UserName)), LastNonEmpty(Values(s, UserEmail));
            var format, key := LastNonEmpty(Values(s, GpgFormat)), LastNonEmpty(Values(s, SigningKey));
            && (ImportGlobal(s) == Ok(None) <==> name.None? || email.None?)
            && (name.Some? && email.Some? ==>
                  (ImportGlobal(s).Ok? <==>
                   && Fits(name.value, 256) && Fits(email.value, 320) && IsAddress(email.value)
                   && (format.Some? ==> format.value in {"none", "openpgp", "ssh", "x509"})
                   && (key.Some? ==> Fits(key.value, 4096) && format != Some("none"))))
  {
    hide Trim, IsAddress, ValidateProfile, LastBool;
    forall k ensures var v := LastNonEmpty(Values(s, k)); v.Some? ==> Trim(v.value) == v.value && v.value != "" {
      InheritedTextIsTrimmed(Values(s, k));
    }
    TrimIsTight("openpgp");
    forall input: Profile ensures ValidateProfile(input).Ok? <==> Acceptable(input) { ValidationAcceptsIff(input); }
  }

  lemma ImportIsWellFormed(s: Snapshot)
    requires ImportGlobal(s).Ok? && ImportGlobal(s).value.Some?
    ensures WellFormed(ImportGlobal(s).value.value)
  {
    forall input: Profile | ValidateProfile(input).Ok? ensures WellFormed(ValidateProfile(input).value) {
      ValidationNormalises(input);
    }
  }

  /** Implicit signing is never imported as signing, and always surfaces as drift. */
  lemma {:induction false} ImplicitSigningIsSurfaced(s: Snapshot)
    requires ImportGlobal(s).Ok? && ImportGlobal(s).value.Some?
    requires LastBool(Values(s, CommitSign)) || LastBool(Values(s, TagSign))
    requires LastNonEmpty(Values(s, GpgFormat)).None? || LastNonEmpty(Values(s, SigningKey)).None?
    ensures var p := ImportGlobal(s).value.value;
            && !p.signCommits && !p.signTags
            && (LastBool(Values(s, CommitSign)) ==> CommitSign in GlobalConfigDrift(ProfileConfig(p), s))
            && (LastBool(Values(s, TagSign)) ==> TagSign in GlobalConfigDrift(ProfileConfig(p), s))
  {
    var p := ImportGlobal(s).value.value;
    ImportedFields(s);
    LastBoolIsSemantic(Values(s, CommitSign));
    LastBoolIsSemantic(Values(s, TagSign));
    GlobalDriftIffDisagrees(p, s, CommitSign);
    GlobalDriftIffDisagrees(p, s, TagSign);
  }
}
