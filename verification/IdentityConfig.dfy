/** Identity profiles, the six Git configuration keys the host manages, and drift between them. */
module IdentityConfig {
  import opened Text
  import opened Wrappers

  /** A configuration key; the first six are the managed ones. */
  datatype Key =
    | UserName | UserEmail | GpgFormat | SigningKey | CommitSign | TagSign
    | Unmanaged(name: string)

  const MANAGED_CONFIG_KEYS: seq<Key> := [UserName, UserEmail, GpgFormat, SigningKey, CommitSign, TagSign]

  predicate Managed(k: Key) { !k.Unmanaged? }

  lemma ManagedKeysAreListed(k: Key)
    ensures Managed(k) <==> k in MANAGED_CONFIG_KEYS
  {
    if Managed(k) {
      var keys := MANAGED_CONFIG_KEYS;
      assert keys[0] == UserName && keys[1] == UserEmail && keys[2] == GpgFormat;
      assert keys[3] == SigningKey && keys[4] == CommitSign && keys[5] == TagSign;
    }
  }

  /** The ordered values of each key; a key that is not in the map has none. */
  type Snapshot = map<Key, seq<string>>

  function Values(s: Snapshot, k: Key): seq<string> {
    if k in s then s[k] else []
  }

  function Last(values: seq<string>): Option<string> {
    if values == [] then None else Some(values[|values| - 1])
  }

  // ---- reading values ----

  function LastNonEmpty(values: seq<string>): Option<string> {
    match Last(values)
    case None => None
    case Some(v) => if Trim(v) == "" then None else Some(Trim(v))
  }

  predicate TrueWord(w: string) { w == "true" || w == "yes" || w == "on" || w == "1" }

  predicate FalseWord(w: string) { w == "false" || w == "no" || w == "off" || w == "0" }

  /** `last_bool`: used by import only; it does not trim. */
  predicate LastBool(values: seq<string>) {
    match Last(values)
    case None => false
    case Some(v) => TrueWord(Lower(v))
  }

  function LastOptionalBool(values: seq<string>): Option<bool> {
    match Last(values)
    case None => None
    case Some(v) =>
      var word := Lower(Trim(v));
      if TrueWord(word) then Some(true) else if FalseWord(word) then Some(false) else None
  }

  /** `semantic_bool`: absent means false, a malformed last value is an error (`None`). */
  function SemanticBool(values: seq<string>): Option<bool> {
    if values == [] then Some(false) else LastOptionalBool(values)
  }

  // ---- profiles ----

  datatype Profile = Profile(
    displayName: string,
    userName: string,
    userEmail: string,
    gpgFormat: Option<string>,
    signingKey: Option<string>,
    signCommits: bool,
    signTags: bool)

  function Spell(b: bool): string { if b then "true" else "false" }

  function OptionValues(o: Option<string>): seq<string> {
    match o case None => [] case Some(v) => [v]
  }

  function ProfileValues(p: Profile, k: Key): seq<string> {
    match k
    case UserName => [p.userName]
    case UserEmail => [p.userEmail]
    case GpgFormat => OptionValues(p.gpgFormat)
    case SigningKey => OptionValues(p.signingKey)
    case CommitSign => [Spell(p.signCommits)]
    case TagSign => [Spell(p.signTags)]
    case Unmanaged(_) => []
  }

  function ProfileConfig(p: Profile): Snapshot {
    map[UserName := ProfileValues(p, UserName), UserEmail := ProfileValues(p, UserEmail),
        GpgFormat := ProfileValues(p, GpgFormat), SigningKey := ProfileValues(p, SigningKey),
        CommitSign := ProfileValues(p, CommitSign), TagSign := ProfileValues(p, TagSign)]
  }

  function EmptyConfig(): Snapshot {
    map[UserName := [], UserEmail := [], GpgFormat := [], SigningKey := [], CommitSign := [], TagSign := []]
  }

  predicate SupportedFormat(f: string) { f == "openpgp" || f == "ssh" || f == "x509" }

  /** What validation guarantees of every stored profile. */
  predicate WellFormed(p: Profile) {
    && Tight(p.userName) && p.userName != ""
    && Tight(p.userEmail) && p.userEmail != ""
    && (p.gpgFormat.Some? ==> SupportedFormat(p.gpgFormat.value))
    && (p.signingKey.Some? ==> Tight(p.signingKey.value) && p.signingKey.value != "" && p.gpgFormat.Some?)
    && (p.signCommits || p.signTags ==> p.gpgFormat.Some? && p.signingKey.Some?)
  }

  datatype ProfileError = InvalidText | InvalidEmail | InvalidFormat | InvalidKey | KeyWithoutFormat | UnsafeSigning

  function BoundedText(value: string, max: nat): Option<string> {
    var v := Trim(value);
    if v == "" || |v| > max || '\0' in v then None else Some(v)
  }

  predicate DotFreeEnds(s: string) { s != "" && s[0] != '.' && s[|s| - 1] != '.' }

  predicate ValidEmailShape(s: string) {
    && (forall i :: 0 <= i < |s| ==> !IsSpace(s[i]) && !IsControl(s[i]))
    && var at := IndexOf(s, '@');
       at < |s| && '@' !in s[at + 1..] && DotFreeEnds(s[..at]) && DotFreeEnds(s[at + 1..])
  }

  function TrimOption(o: Option<string>): Option<string> {
    match o case None => None case Some(v) => Some(Trim(v))
  }

  /** `validate_profile_input`: the profile as it would be stored, or why it is refused. */
  function ValidateProfile(input: Profile): Result<Profile, ProfileError> {
    var displayName := BoundedText(input.displayName, 256);
    var userName := BoundedText(input.userName, 256);
    var userEmail := BoundedText(input.userEmail, 320);
    if displayName.None? || userName.None? || userEmail.None? then Err(InvalidText)
    else if !ValidEmailShape(userEmail.value) then Err(InvalidEmail)
    else
      var format := TrimOption(input.gpgFormat);
      if format.Some? && format.value != "none" && !SupportedFormat(format.value) then Err(InvalidFormat)
      else
        var gpgFormat := if format == Some("none") then None else format;
        var key := TrimOption(input.signingKey);
        if key.Some? && key.value != "" && (|key.value| > 4096 || '\0' in key.value) then Err(InvalidKey)
        else
          var signingKey := if key == Some("") then None else key;
          if gpgFormat.None? && signingKey.Some? then Err(KeyWithoutFormat)
          else if (input.signCommits || input.signTags) && (gpgFormat.None? || signingKey.None?) then
            Err(UnsafeSigning)
          else
            Ok(Profile(displayName.value, userName.value, userEmail.value, gpgFormat, signingKey,
                       input.signCommits, input.signTags))
  }

  lemma SupportedFormatsAreTight(f: string)
    requires SupportedFormat(f)
    ensures Tight(f) && f != "" && f != "none"
  {
  }

  /** Validation is a normal form: an accepted profile is well formed, and validating it again
      returns it unchanged. */
  lemma ValidationNormalises(input: Profile)
    requires ValidateProfile(input).Ok?
    ensures WellFormed(ValidateProfile(input).value)
    ensures ValidateProfile(ValidateProfile(input).value) == ValidateProfile(input)
  {
    hide Trim, Tight, ValidEmailShape, SupportedFormat;
    var p := ValidateProfile(input).value;
    TrimIsTight(input.displayName); TrimIsTight(p.displayName);
    TrimIsTight(input.userName); TrimIsTight(p.userName);
    TrimIsTight(input.userEmail); TrimIsTight(p.userEmail);
    if p.gpgFormat.Some? {
      SupportedFormatsAreTight(p.gpgFormat.value);
      TrimIsTight(p.gpgFormat.value);
    }
    if p.signingKey.Some? {
      TrimIsTight(input.signingKey.value);
      TrimIsTight(p.signingKey.value);
    }
  }

  /** One '@' between two names that are not empty and neither begin nor end with a dot, and no blank or
      control character. */
  ghost predicate IsAddress(s: string) {
    && (forall i :: 0 <= i < |s| ==> !IsSpace(s[i]) && !IsControl(s[i]))
    && exists at :: && 0 < at < |s| - 1 && s[at] == '@' && (forall j :: 0 <= j < |s| && s[j] == '@' ==> j == at)
                    && s[0] != '.' && s[at - 1] != '.' && s[at + 1] != '.' && s[|s| - 1] != '.'
  }

  lemma EmailShapeIff(s: string)
    ensures ValidEmailShape(s) <==> IsAddress(s)
  {
    var at := IndexOf(s, '@');
    if ValidEmailShape(s) {
      assert s[..at][0] == s[0] && s[..at][at - 1] == s[at - 1];
      assert s[at + 1..][0] == s[at + 1] && s[at + 1..][|s| - at - 2] == s[|s| - 1];
      assert forall j :: at < j < |s| ==> s[j] == s[at + 1..][j - at - 1];
    }
    if IsAddress(s) {
      var only :| && 0 < only < |s| - 1 && s[only] == '@' && (forall j :: 0 <= j < |s| && s[j] == '@' ==> j == only)
                  && s[0] != '.' && s[only - 1] != '.' && s[only + 1] != '.' && s[|s| - 1] != '.';
      assert at == only;
    }
  }

  predicate HasFormat(input: Profile) { input.gpgFormat.Some? && Trim(input.gpgFormat.value) != "none" }

  predicate HasKey(input: Profile) { input.signingKey.Some? && Trim(input.signingKey.value) != "" }

  predicate Fits(s: string, max: nat) { 0 < |s| <= max && '\0' !in s }

  /** What a profile must satisfy to be stored, after its texts are trimmed. */
  ghost predicate Acceptable(input: Profile) {
    && Fits(Trim(input.displayName), 256) && Fits(Trim(input.userName), 256) && Fits(Trim(input.userEmail), 320)
    && IsAddress(Trim(input.userEmail))
    && (input.gpgFormat.Some? ==> Trim(input.gpgFormat.value) in {"none", "openpgp", "ssh", "x509"})
    && (HasKey(input) ==> HasFormat(input) && Fits(Trim(input.signingKey.value), 4096))
    && (input.signCommits || input.signTags ==> HasFormat(input) && HasKey(input))
  }

  /** Exactly the acceptable profiles are stored, with every text trimmed, the format "none" and an empty
      key left out, and the flags as given. */
  lemma ValidationAcceptsIff(input: Profile)
    ensures ValidateProfile(input).Ok? <==> Acceptable(input)
    ensures ValidateProfile(input).Ok? ==>
              ValidateProfile(input).value
              == Profile(Trim(input.displayName), Trim(input.userName), Trim(input.userEmail),
                         if HasFormat(input) then Some(Trim(input.gpgFormat.value)) else None,
                         if HasKey(input) then Some(Trim(input.signingKey.value)) else None,
                         input.signCommits, input.signTags)
  {
    hide Trim, ValidEmailShape, IsAddress;
    EmailShapeIff(Trim(input.userEmail));
  }

  // ---- drift ----

  /** `config_drift` (repository scope): the managed keys whose whole value lists differ. */
  function ConfigDrift(expected: Snapshot, actual: Snapshot): set<Key> {
    set k | k in MANAGED_CONFIG_KEYS && Values(expected, k) != Values(actual, k)
  }

  predicate EquivalentGlobally(k: Key, expected: seq<string>, actual: seq<string>) {
    if k == CommitSign || k == TagSign then
      SemanticBool(expected).Some? && SemanticBool(expected) == SemanticBool(actual)
    else
      Last(expected) == Last(actual)
  }

  /** `global_config_drift`: only the last value counts, and signing flags compare as booleans. */
  function GlobalConfigDrift(expected: Snapshot, actual: Snapshot): set<Key> {
    set k | k in MANAGED_CONFIG_KEYS && !EquivalentGlobally(k, Values(expected, k), Values(actual, k))
  }

  /** The managed part of a snapshot is exactly the profile's configuration. */
  predicate Carries(s: Snapshot, p: Profile) {
    forall k :: k in MANAGED_CONFIG_KEYS ==> Values(s, k) == ProfileValues(p, k)
  }

  lemma ProfileConfigValues(p: Profile)
    ensures Carries(ProfileConfig(p), p)
  {
  }

  lemma NoDriftIffCarries(p: Profile, actual: Snapshot)
    ensures ConfigDrift(ProfileConfig(p), actual) == {} <==> Carries(actual, p)
  {
    ProfileConfigValues(p);
    if ConfigDrift(ProfileConfig(p), actual) == {} {
      forall k | k in MANAGED_CONFIG_KEYS ensures Values(actual, k) == ProfileValues(p, k) {
        assert k !in ConfigDrift(ProfileConfig(p), actual);
      }
    }
  }

  lemma SpellingIsABool(b: bool)
    ensures SemanticBool([Spell(b)]) == Some(b)
  {
    assert Tight(Spell(b));
    TrimIsTight(Spell(b));
    assert Lower("true") == "true" && Lower("false") == "false";
  }

  /** Global drift on a key, said without the drift function: the last value is the profile's
      (text), or means the profile's (signing flags). */
  predicate Agrees(s: Snapshot, p: Profile, k: Key) {
    match k
    case CommitSign => SemanticBool(Values(s, k)) == Some(p.signCommits)
    case TagSign => SemanticBool(Values(s, k)) == Some(p.signTags)
    case _ => Last(Values(s, k)) == Last(ProfileValues(p, k))
  }

  lemma {:induction false} GlobalDriftIffDisagrees(p: Profile, actual: Snapshot, k: Key)
    requires Managed(k)
    ensures k in GlobalConfigDrift(ProfileConfig(p), actual) <==> !Agrees(actual, p, k)
  {
    ManagedKeysAreListed(k);
    ProfileConfigValues(p);
    SpellingIsABool(p.signCommits);
    SpellingIsABool(p.signTags);
  }
}
