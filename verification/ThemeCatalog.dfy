/** Theme discovery: the catalogue built from the installed plugins, the rows it leaves in the
    database, and the active theme. What reading and validating a definition file yields is part of
    the plugin descriptor. */
module ThemeCatalog {
  import opened Wrappers

  type ThemeId = string
  type PluginId = string

  const DEFAULT_THEME_ID: ThemeId := "git-ramus.theme.default"
  const HOST_THEME_PLUGIN_ID: PluginId := "git-ramus.host"
  const STALE_THEME_REASON := "theme.plugin.stale"

  datatype Definition = Definition(themeId: ThemeId, content: string)

  datatype LoadError = ReadFailed | InvalidJson | InvalidSchema | IdMismatch

  function ReasonCode(e: LoadError): string {
    match e
    case ReadFailed => "theme.definition.read-failed"
    case InvalidJson => "theme.definition.invalid-json"
    case InvalidSchema => "theme.definition.invalid-schema"
    case IdMismatch => "theme.definition.id-mismatch"
  }

  datatype Contribution = Contribution(themeId: ThemeId, loaded: Result<Definition, LoadError>)

  datatype Descriptor = Descriptor(pluginId: PluginId, version: string, theme: Option<Contribution>)

  datatype ThemeRecord = ThemeRecord(themeId: ThemeId, pluginId: PluginId, version: string, definition: Definition)

  /** The definition column together with `is_valid`. */
  datatype Stored = Usable(definition: Definition) | Unusable(reason: string)

  datatype Row = Row(pluginId: PluginId, version: string, stored: Stored)

  datatype ThemeState = ThemeState(activeThemeId: ThemeId, theme: Definition)

  datatype ThemeError = MissingSettings

  // ---- the catalogue ----

  predicate HasId(themes: seq<ThemeRecord>, id: ThemeId) {
    exists i | 0 <= i < |themes| :: themes[i].themeId == id
  }

  /** The definition a contribution yields when it is usable under the identifier it declares. */
  predicate Sound(c: Contribution) { c.loaded.Ok? && c.loaded.value.themeId == c.themeId }

  function RecordOf(d: Descriptor): ThemeRecord
    requires d.theme.Some? && d.theme.value.loaded.Ok?
  {
    ThemeRecord(d.theme.value.loaded.value.themeId, d.pluginId, d.version, d.theme.value.loaded.value)
  }

  /** Why a contribution that is not sound was refused. */
  function Reason(c: Contribution): LoadError {
    if c.loaded.Err? then c.loaded.error else IdMismatch
  }

  /** What the discovery loop has listed after `plugins`, in the order it met them. */
  function Listed(host: ThemeRecord, plugins: seq<Descriptor>): (themes: seq<ThemeRecord>)
    ensures |themes| >= 1 && themes[0] == host
  {
    if plugins == [] then [host] else
    var d := plugins[|plugins| - 1];
    var before := Listed(host, plugins[..|plugins| - 1]);
    if d.theme.None? || HasId(before, d.theme.value.themeId) || !Sound(d.theme.value) then before
    else before + [RecordOf(d)]
  }

  function Stale(rows: map<ThemeId, Row>): map<ThemeId, Row> {
    map id | id in rows ::
      if rows[id].pluginId != HOST_THEME_PLUGIN_ID then rows[id].(stored := Unusable(STALE_THEME_REASON)) else rows[id]
  }

  function RowOf(t: ThemeRecord): Row { Row(t.pluginId, t.version, Usable(t.definition)) }

  /** The rows after `plugins`: stale ones are invalidated first, then each contribution met before
      its identifier is listed replaces the row. */
  function Recorded(host: ThemeRecord, rows: map<ThemeId, Row>, plugins: seq<Descriptor>): map<ThemeId, Row> {
    if plugins == [] then Stale(rows)[host.themeId := RowOf(host)] else
    var d := plugins[|plugins| - 1];
    var before := Recorded(host, rows, plugins[..|plugins| - 1]);
    if d.theme.None? || HasId(Listed(host, plugins[..|plugins| - 1]), d.theme.value.themeId) then before
    else if Sound(d.theme.value) then before[d.theme.value.themeId := RowOf(RecordOf(d))]
    else before[d.theme.value.themeId := Row(d.pluginId, d.version, Unusable(ReasonCode(Reason(d.theme.value))))]
  }

  // ---- what the loop promises ----

  ghost predicate Contributes(d: Descriptor, id: ThemeId) { d.theme.Some? && d.theme.value.themeId == id }

  ghost predicate ContributesSoundly(d: Descriptor, id: ThemeId) { Contributes(d, id) && Sound(d.theme.value) }

  ghost predicate FirstSound(plugins: seq<Descriptor>, id: ThemeId, i: int) {
    && 0 <= i < |plugins| && ContributesSoundly(plugins[i], id)
    && forall j :: 0 <= j < i ==> !ContributesSoundly(plugins[j], id)
  }

  ghost predicate UniqueIds(themes: seq<ThemeRecord>) {
    forall i, j :: 0 <= i < j < |themes| ==> themes[i].themeId != themes[j].themeId
  }

  /** `t` is the host's theme, or the theme of the first plugin with a sound one under that name. */
  ghost predicate Wins(host: ThemeRecord, plugins: seq<Descriptor>, t: ThemeRecord) {
    || t == host
    || (t.themeId != host.themeId && exists i :: FirstSound(plugins, t.themeId, i) && t == RecordOf(plugins[i]))
  }

  ghost predicate SoundlyContributed(plugins: seq<Descriptor>, id: ThemeId) {
    exists i :: 0 <= i < |plugins| && ContributesSoundly(plugins[i], id)
  }

  lemma ContributionsGrow(plugins: seq<Descriptor>, id: ThemeId)
    requires plugins != []
    ensures var n := |plugins| - 1;
            && (SoundlyContributed(plugins, id) <==>
                SoundlyContributed(plugins[..n], id) || ContributesSoundly(plugins[n], id))
            && (forall i :: FirstSound(plugins[..n], id, i) ==> FirstSound(plugins, id, i))
            && (!SoundlyContributed(plugins[..n], id) && ContributesSoundly(plugins[n], id) ==>
                 FirstSound(plugins, id, n))
  {
    hide ContributesSoundly;
    var n := |plugins| - 1;
    var init := plugins[..n];
    if i :| 0 <= i < |plugins| && ContributesSoundly(plugins[i], id) {
      assert i < n ==> init[i] == plugins[i];
    }
    if i :| 0 <= i < n && ContributesSoundly(init[i], id) {
      assert plugins[i] == init[i];
    }
  }

  /** An identifier is listed as soon as some plugin contributed it soundly. */
  lemma {:induction false} ListedIds(host: ThemeRecord, plugins: seq<Descriptor>, id: ThemeId)
    ensures HasId(Listed(host, plugins), id) <==> id == host.themeId || SoundlyContributed(plugins, id)
  {
    if plugins != [] {
      hide SoundlyContributed, FirstSound;
      var n := |plugins| - 1;
      ListedIds(host, plugins[..n], id);
      ContributionsGrow(plugins, id);
      AppendedIds(Listed(host, plugins[..n]), Listed(host, plugins), id);
    } else {
      assert [host][0].themeId == host.themeId;
    }
  }

  lemma AppendedIds(before: seq<ThemeRecord>, after: seq<ThemeRecord>, id: ThemeId)
    requires before == after || (|after| == |before| + 1 && after[..|before|] == before)
    ensures HasId(after, id) <==> HasId(before, id) || (after != before && after[|before|].themeId == id)
  {
    if i :| 0 <= i < |before| && before[i].themeId == id { assert after[..|before|][i] == after[i]; }
    if i :| 0 <= i < |after| && after[i].themeId == id { assert i < |before| ==> after[..|before|][i] == after[i]; }
  }

  lemma FirstSoundIndex(plugins: seq<Descriptor>, id: ThemeId, i: int)
    requires FirstSound(plugins, id, i)
    ensures 0 <= i < |plugins| && plugins[i].theme.Some? && plugins[i].theme.value.loaded.Ok?
    ensures RecordOf(plugins[i]).themeId == id
    ensures forall j :: FirstSound(plugins, id, j) ==> j == i
  {
  }

  /** What the last plugin added, if it added anything. */
  lemma LastIsSound(host: ThemeRecord, plugins: seq<Descriptor>, t: ThemeRecord)
    requires plugins != [] && t in Listed(host, plugins) && t !in Listed(host, plugins[..|plugins| - 1])
    ensures ContributesSoundly(plugins[|plugins| - 1], t.themeId) && t == RecordOf(plugins[|plugins| - 1])
    ensures !HasId(Listed(host, plugins[..|plugins| - 1]), t.themeId)
  {
  }

  lemma {:induction false} ListedWin(host: ThemeRecord, plugins: seq<Descriptor>, t: ThemeRecord)
    requires t in Listed(host, plugins)
    ensures Wins(host, plugins, t)
  {
    if plugins != [] {
      hide ContributesSoundly, FirstSound, SoundlyContributed;
      var n := |plugins| - 1;
      ContributionsGrow(plugins, t.themeId);
      if t in Listed(host, plugins[..n]) {
        ListedWin(host, plugins[..n], t);
        if i :| FirstSound(plugins[..n], t.themeId, i) {
          FirstSoundIndex(plugins[..n], t.themeId, i);
          assert plugins[..n][i] == plugins[i];
        }
      } else {
        ListedIds(host, plugins[..n], t.themeId);
        LastIsSound(host, plugins, t);
      }
    }
  }

  lemma {:induction false} ListedIdsAreUnique(host: ThemeRecord, plugins: seq<Descriptor>)
    ensures UniqueIds(Listed(host, plugins))
  {
    if plugins != [] {
      ListedIdsAreUnique(host, plugins[..|plugins| - 1]);
    }
  }

  /** First valid wins: the list is the host's theme and, for every other identifier that some plugin
      contributed soundly, the theme of the first plugin that did. */
  lemma ListedAreTheWinners(host: ThemeRecord, plugins: seq<Descriptor>, t: ThemeRecord)
    ensures t in Listed(host, plugins) <==> Wins(host, plugins, t)
  {
    hide Listed, RecordOf;
    if t in Listed(host, plugins) { ListedWin(host, plugins, t); }
    if t != host && Wins(host, plugins, t) {
      var i :| FirstSound(plugins, t.themeId, i) && t == RecordOf(plugins[i]);
      ListedIds(host, plugins, t.themeId);
      var k :| 0 <= k < |Listed(host, plugins)| && Listed(host, plugins)[k].themeId == t.themeId;
      ListedWin(host, plugins, Listed(host, plugins)[k]);
      FirstSoundIndex(plugins, t.themeId, i);
    }
  }

  // ---- the rows ----

  ghost predicate Contributed(plugins: seq<Descriptor>, id: ThemeId) {
    exists i :: 0 <= i < |plugins| && Contributes(plugins[i], id)
  }

  predicate UsableRow(rows: map<ThemeId, Row>, id: ThemeId) { id in rows && rows[id].stored.Usable? }

  lemma ContributedGrows(plugins: seq<Descriptor>, id: ThemeId)
    requires plugins != []
    ensures Contributed(plugins, id) <==>
            Contributed(plugins[..|plugins| - 1], id) || Contributes(plugins[|plugins| - 1], id)
  {
    var init := plugins[..|plugins| - 1];
    if i :| 0 <= i < |plugins| && Contributes(plugins[i], id) { assert i < |init| ==> init[i] == plugins[i]; }
    if i :| 0 <= i < |init| && Contributes(init[i], id) { assert plugins[i] == init[i]; }
  }

  /** Which rows are usable after discovery: those of the catalogue, and host-owned rows nobody
      contributed that were usable before. No row is ever removed. */
  lemma {:induction false} UsableRows(host: ThemeRecord, rows: map<ThemeId, Row>, plugins: seq<Descriptor>, id: ThemeId)
    ensures UsableRow(Recorded(host, rows, plugins), id) <==>
            || HasId(Listed(host, plugins), id)
            || (UsableRow(rows, id) && rows[id].pluginId == HOST_THEME_PLUGIN_ID && !Contributed(plugins, id))
    ensures id in Recorded(host, rows, plugins) <==> id in rows || id == host.themeId || Contributed(plugins, id)
  {
    if plugins == [] {
      ListedIds(host, plugins, id);
    } else {
      hide HasId, Contributed;
      var n := |plugins| - 1;
      UsableRows(host, rows, plugins[..n], id);
      ContributedGrows(plugins, id);
      AppendedIds(Listed(host, plugins[..n]), Listed(host, plugins), id);
    }
  }

  /** The row of every listed theme is the theme. */
  lemma {:induction false} ListedRows(host: ThemeRecord, rows: map<ThemeId, Row>, plugins: seq<Descriptor>,
      t: ThemeRecord)
    requires t in Listed(host, plugins)
    ensures t.themeId in Recorded(host, rows, plugins) && Recorded(host, rows, plugins)[t.themeId] == RowOf(t)
  {
    if plugins != [] {
      var init := plugins[..|plugins| - 1];
      if t in Listed(host, init) {
        ListedRows(host, rows, init, t);
        var k :| 0 <= k < |Listed(host, init)| && Listed(host, init)[k] == t;
        assert HasId(Listed(host, init), t.themeId);
      }
    }
  }

  /** Only the default row belongs to the host. */
  ghost predicate HostOwnsOnlyDefault(rows: map<ThemeId, Row>) {
    forall id :: id in rows && rows[id].pluginId == HOST_THEME_PLUGIN_ID ==> id == DEFAULT_THEME_ID
  }

  /** Plugin `i` is the last to write the row of `id`: nobody contributed it soundly before, and it either
      does or is the last to contribute it at all. */
  ghost predicate Writes(host: ThemeRecord, plugins: seq<Descriptor>, i: int, id: ThemeId) {
    && 0 <= i < |plugins| && id != host.themeId && Contributes(plugins[i], id)
    && (forall j :: 0 <= j < i ==> !ContributesSoundly(plugins[j], id))
    && (ContributesSoundly(plugins[i], id) || forall j :: i < j < |plugins| ==> !Contributes(plugins[j], id))
  }

  /** How the last writer changes when a plugin is added. */
  lemma WritersGrow(host: ThemeRecord, plugins: seq<Descriptor>, i: int, id: ThemeId)
    requires plugins != [] && id != host.themeId
    ensures var n := |plugins| - 1;
            var init := plugins[..n];
            Writes(host, plugins, i, id) <==>
            if !Contributes(plugins[n], id) || SoundlyContributed(init, id) then Writes(host, init, i, id) else i == n
  {
    hide ContributesSoundly;
    var n := |plugins| - 1;
    var init := plugins[..n];
    assert forall j :: 0 <= j < n ==> init[j] == plugins[j];
    SoundIsContributed(plugins, id);
    if SoundlyContributed(init, id) {
      var k :| 0 <= k < n && ContributesSoundly(init[k], id);
      assert ContributesSoundly(plugins[k], id) && Contributes(plugins[k], id);
    }
  }

  lemma SoundIsContributed(plugins: seq<Descriptor>, id: ThemeId)
    ensures forall j :: 0 <= j < |plugins| && ContributesSoundly(plugins[j], id) ==> Contributes(plugins[j], id)
  {
  }

  /** What a plugin writes for the theme it contributes: its definition, or why it is refused. */
  function WrittenRow(d: Descriptor): Row
    requires d.theme.Some?
  {
    var c := d.theme.value;
    Row(d.pluginId, d.version,
        match c.loaded
        case Ok(definition) =>
          if definition.themeId == c.themeId then Usable(definition) else Unusable("theme.definition.id-mismatch")
        case Err(ReadFailed) => Unusable("theme.definition.read-failed")
        case Err(InvalidJson) => Unusable("theme.definition.invalid-json")
        case Err(InvalidSchema) => Unusable("theme.definition.invalid-schema")
        case Err(IdMismatch) => Unusable("theme.definition.id-mismatch"))
  }

  /** What discovery leaves of a row nobody contributes to: the host's own stays, any other becomes stale. */
  function LeftRow(row: Row): Row {
    if row.pluginId == HOST_THEME_PLUGIN_ID then row
    else Row(row.pluginId, row.version, Unusable("theme.plugin.stale"))
  }

  lemma StaleRow(rows: map<ThemeId, Row>, id: ThemeId)
    ensures id in Stale(rows) <==> id in rows
    ensures id in rows ==> Stale(rows)[id] == LeftRow(rows[id])
  {
  }

  lemma LastRow(host: ThemeRecord, rows: map<ThemeId, Row>, plugins: seq<Descriptor>)
    requires plugins != []
    ensures var n := |plugins| - 1;
            var before := Recorded(host, rows, plugins[..n]);
            Recorded(host, rows, plugins) ==
            if plugins[n].theme.None? || HasId(Listed(host, plugins[..n]), plugins[n].theme.value.themeId) then before
            else before[plugins[n].theme.value.themeId := WrittenRow(plugins[n])]
  {
    hide Listed, HasId;
  }

  /** The row of every theme but the default after discovery: its last writer's, or the one before, which is
      marked stale unless it is the host's. */
  lemma {:induction false} RowOwner(host: ThemeRecord, rows: map<ThemeId, Row>, plugins: seq<Descriptor>, id: ThemeId)
    requires id != host.themeId
    ensures forall i :: Writes(host, plugins, i, id) ==>
              && id in Recorded(host, rows, plugins)
              && Recorded(host, rows, plugins)[id] == WrittenRow(plugins[i])
    ensures Contributed(plugins, id) ==> exists i :: Writes(host, plugins, i, id)
    ensures !Contributed(plugins, id) ==>
              && (id in Recorded(host, rows, plugins) <==> id in rows)
              && (id in rows ==> Recorded(host, rows, plugins)[id] == LeftRow(rows[id]))
  {
    hide ReasonCode, RowOf, WrittenRow, LeftRow, Sound, Reason;
    if plugins == [] {
      StaleRow(rows, id);
    } else {
      hide Writes, Contributed, SoundlyContributed, ContributesSoundly, Recorded;
      var n := |plugins| - 1;
      var init := plugins[..n];
      LastRow(host, rows, plugins);
      RowOwner(host, rows, init, id);
      ContributedGrows(plugins, id);
      ListedIds(host, init, id);
      SoundMeansContributed(init, id);
      forall i
        ensures Writes(host, plugins, i, id) <==>
                if !Contributes(plugins[n], id) || SoundlyContributed(init, id) then Writes(host, init, i, id)
                else i == n
      {
        WritersGrow(host, plugins, i, id);
      }
      forall i | Writes(host, init, i, id)
        ensures 0 <= i < n && init[i] == plugins[i]
      {
        WriterIsThere(host, init, i, id);
      }
      assert Contributes(plugins[n], id) && !SoundlyContributed(init, id) ==> Writes(host, plugins, n, id);
    }
  }

  lemma SoundMeansContributed(plugins: seq<Descriptor>, id: ThemeId)
    ensures SoundlyContributed(plugins, id) ==> Contributed(plugins, id)
  {
    if i :| 0 <= i < |plugins| && ContributesSoundly(plugins[i], id) { assert Contributes(plugins[i], id); }
  }

  lemma WriterIsThere(host: ThemeRecord, plugins: seq<Descriptor>, i: int, id: ThemeId)
    requires Writes(host, plugins, i, id)
    ensures 0 <= i < |plugins|
  {
  }

  /** The last to write the row of this identifier is a plugin that bears the host's name. */
  ghost predicate HostNamedWriter(host: ThemeRecord, plugins: seq<Descriptor>, id: ThemeId) {
    exists i :: 0 <= i < |plugins| && Writes(host, plugins, i, id) && plugins[i].pluginId == HOST_THEME_PLUGIN_ID
  }

  lemma HostRowIsHosts(host: ThemeRecord, rows: map<ThemeId, Row>, plugins: seq<Descriptor>, id: ThemeId)
    requires host.themeId == DEFAULT_THEME_ID
    ensures id != DEFAULT_THEME_ID && id in Recorded(host, rows, plugins) ==>
              (Recorded(host, rows, plugins)[id].pluginId == HOST_THEME_PLUGIN_ID <==>
               || HostNamedWriter(host, plugins, id)
               || (id in rows && rows[id].pluginId == HOST_THEME_PLUGIN_ID && !Contributed(plugins, id)))
  {
    if id != DEFAULT_THEME_ID {
      hide Writes, Contributed, Recorded;
      RowOwner(host, rows, plugins, id);
      if Contributed(plugins, id) { var i :| Writes(host, plugins, i, id); }
      forall i | Writes(host, plugins, i, id)
        ensures Contributed(plugins, id)
      {
        WriterContributes(host, plugins, i, id);
      }
    }
  }

  lemma WriterContributes(host: ThemeRecord, plugins: seq<Descriptor>, i: int, id: ThemeId)
    requires Writes(host, plugins, i, id)
    ensures Contributed(plugins, id)
  {
  }

  /** Discovery leaves the default the only host-owned row exactly when no plugin of the host's name is
      the last to write a row, and every other row the host owned before is contributed by someone. */
  lemma HostOwnsOnlyDefaultIff(host: ThemeRecord, rows: map<ThemeId, Row>, plugins: seq<Descriptor>)
    requires host.themeId == DEFAULT_THEME_ID
    ensures HostOwnsOnlyDefault(Recorded(host, rows, plugins)) <==>
            && (forall id :: !HostNamedWriter(host, plugins, id))
            && (forall id :: id in rows && rows[id].pluginId == HOST_THEME_PLUGIN_ID && id != DEFAULT_THEME_ID ==>
                  Contributed(plugins, id))
  {
    hide Writes, Contributed, Recorded;
    var after := Recorded(host, rows, plugins);
    forall id | id in after && id != DEFAULT_THEME_ID
      ensures after[id].pluginId == HOST_THEME_PLUGIN_ID <==>
              || HostNamedWriter(host, plugins, id)
              || (id in rows && rows[id].pluginId == HOST_THEME_PLUGIN_ID && !Contributed(plugins, id))
    {
      HostRowIsHosts(host, rows, plugins, id);
    }
    forall i, id | Writes(host, plugins, i, id) ensures id in after && id != DEFAULT_THEME_ID {
      WriterIsNotHost(host, plugins, i, id);
      RowOwner(host, rows, plugins, id);
    }
    forall id | id in rows && id != DEFAULT_THEME_ID && !Contributed(plugins, id) ensures id in after {
      RowOwner(host, rows, plugins, id);
    }
  }

  lemma WriterIsNotHost(host: ThemeRecord, plugins: seq<Descriptor>, i: int, id: ThemeId)
    requires Writes(host, plugins, i, id)
    ensures id != host.themeId
  {
  }

  // ---- order ----

  predicate Le(s: string, t: string) {
    s == "" || (t != "" && (s[0] < t[0] || (s[0] == t[0] && Le(s[1..], t[1..]))))
  }

  lemma {:induction false} LeIsTotal(s: string, t: string)
    ensures Le(s, t) || Le(t, s)
    ensures Le(s, t) && Le(t, s) ==> s == t
  {
    if s != "" && t != "" {
      LeIsTotal(s[1..], t[1..]);
      assert s == [s[0]] + s[1..] && t == [t[0]] + t[1..];
    }
  }

  lemma {:induction false} LeIsTransitive(s: string, t: string, u: string)
    requires Le(s, t) && Le(t, u)
    ensures Le(s, u)
  {
    if s != "" && s[0] == t[0] && t[0] == u[0] { LeIsTransitive(s[1..], t[1..], u[1..]); }
  }

  predicate SortedById(themes: seq<ThemeRecord>) {
    forall i, j :: 0 <= i < j < |themes| ==> Le(themes[i].themeId, themes[j].themeId)
  }

  function Insert(t: ThemeRecord, themes: seq<ThemeRecord>): seq<ThemeRecord> {
    if themes == [] || Le(t.themeId, themes[0].themeId) then [t] + themes
    else [themes[0]] + Insert(t, themes[1..])
  }

  function SortById(themes: seq<ThemeRecord>): seq<ThemeRecord> {
    if themes == [] then [] else Insert(themes[0], SortById(themes[1..]))
  }

  lemma {:induction false} InsertAdds(t: ThemeRecord, themes: seq<ThemeRecord>)
    ensures multiset(Insert(t, themes)) == multiset(themes) + multiset{t}
    ensures forall u :: u in Insert(t, themes) <==> u == t || u in themes
  {
    if themes != [] {
      InsertAdds(t, themes[1..]);
      assert themes == [themes[0]] + themes[1..];
    }
  }

  lemma {:induction false} InsertKeepsOrder(t: ThemeRecord, themes: seq<ThemeRecord>)
    requires SortedById(themes) && UniqueIds(themes) && !HasId(themes, t.themeId)
    ensures SortedById(Insert(t, themes)) && UniqueIds(Insert(t, themes))
  {
    hide Le;
    if themes != [] {
      var first, rest := themes[0], themes[1..];
      LeIsTotal(t.themeId, first.themeId);
      if Le(t.themeId, first.themeId) {
        forall j | 0 <= j < |themes| ensures Le(t.themeId, themes[j].themeId) {
          if j > 0 { LeIsTransitive(t.themeId, first.themeId, themes[j].themeId); }
        }
      } else {
        InsertKeepsOrder(t, rest);
        InsertAdds(t, rest);
        forall j | 0 <= j < |Insert(t, rest)|
          ensures Le(first.themeId, Insert(t, rest)[j].themeId) && first.themeId != Insert(t, rest)[j].themeId
        {
          assert Insert(t, rest)[j] == t || Insert(t, rest)[j] in rest;
        }
      }
    }
  }

  /** The sort orders the themes by identifier and neither loses nor adds any. */
  lemma {:induction false} SortSorts(themes: seq<ThemeRecord>)
    requires UniqueIds(themes)
    ensures SortedById(SortById(themes)) && UniqueIds(SortById(themes))
    ensures multiset(SortById(themes)) == multiset(themes)
  {
    hide Insert, SortedById;
    if themes == [] {
      NothingIsSorted();
    } else {
      var rest := themes[1..];
      SortSorts(rest);
      assert themes == [themes[0]] + rest;
      forall k | 0 <= k < |SortById(rest)| ensures SortById(rest)[k] in rest {
        assert SortById(rest)[k] in multiset(SortById(rest));
      }
      InsertKeepsOrder(themes[0], SortById(rest));
      InsertAdds(themes[0], SortById(rest));
    }
  }

  lemma NothingIsSorted()
    ensures SortedById([])
  {
  }

  function Catalog(host: ThemeRecord, plugins: seq<Descriptor>): seq<ThemeRecord> {
    [Listed(host, plugins)[0]] + SortById(Listed(host, plugins)[1..])
  }

  /** The catalogue: the host's theme first, the others in order and without repetition, and exactly
      the winners. */
  lemma CatalogIsTheWinners(host: ThemeRecord, plugins: seq<Descriptor>)
    ensures var c := Catalog(host, plugins);
            && c[0] == host && SortedById(c[1..]) && UniqueIds(c)
            && forall t :: t in c <==> Wins(host, plugins, t)
  {
    hide Listed, SortById, SortedById, Wins;
    var listed := Listed(host, plugins);
    var c := Catalog(host, plugins);
    ListedIdsAreUnique(host, plugins);
    SortSorts(listed[1..]);
    assert c[1..] == SortById(listed[1..]) && listed == [listed[0]] + listed[1..];
    assert multiset(c) == multiset(listed);
    forall t ensures t in c <==> Wins(host, plugins, t) {
      ListedAreTheWinners(host, plugins, t);
      assert t in c <==> t in multiset(c);
    }
    forall k | 1 <= k < |c| ensures c[k] in listed[1..] {
      assert c[1..][k - 1] in multiset(SortById(listed[1..]));
    }
    assert forall i, j :: 1 <= i < j < |c| ==> c[i] == c[1..][i - 1] && c[j] == c[1..][j - 1];
  }

  /** After discovery every listed theme has its row, and the catalogue and the usable rows agree on an
      identifier exactly when no usable row the host owned under it before was left uncontributed. */
  lemma CatalogAgreesWithRows(host: ThemeRecord, rows: map<ThemeId, Row>, plugins: seq<Descriptor>, id: ThemeId)
    ensures (UsableRow(Recorded(host, rows, plugins), id) <==> HasId(Catalog(host, plugins), id))
            <==> || id == host.themeId || Contributed(plugins, id)
                 || !UsableRow(rows, id) || rows[id].pluginId != HOST_THEME_PLUGIN_ID
    ensures forall t :: t in Catalog(host, plugins) ==>
              t.themeId in Recorded(host, rows, plugins)
              && Recorded(host, rows, plugins)[t.themeId] == Row(t.pluginId, t.version, Usable(t.definition))
  {
    hide Listed, Recorded, Catalog, HasId, Wins, Contributed, SoundlyContributed;
    UsableRows(host, rows, plugins, id);
    ListedIds(host, plugins, id);
    SoundMeansContributed(plugins, id);
    SameIds(host, plugins, id);
    CatalogIsTheWinners(host, plugins);
    forall t | t in Catalog(host, plugins)
      ensures t.themeId in Recorded(host, rows, plugins) && Recorded(host, rows, plugins)[t.themeId] == RowOf(t)
    {
      ListedAreTheWinners(host, plugins, t);
      ListedRows(host, rows, plugins, t);
    }
  }

  /** A plugin of the host's own name contributes a theme and is gone at the next discovery: its row is
      still usable then, and its theme is not in the catalogue. */
  lemma HostNamedPluginLeavesRow(host: ThemeRecord)
    requires host.themeId == DEFAULT_THEME_ID
    ensures var plugin := Descriptor(HOST_THEME_PLUGIN_ID, "1.0.0",
                                     Some(Contribution("x.y", Ok(Definition("x.y", "")))));
            var rows := Recorded(host, map[], [plugin]);
            UsableRow(Recorded(host, rows, []), "x.y") && !HasId(Catalog(host, []), "x.y")
  {
    var plugin := Descriptor(HOST_THEME_PLUGIN_ID, "1.0.0", Some(Contribution("x.y", Ok(Definition("x.y", "")))));
    assert [plugin][..0] == [];
    assert "x.y"[0] != DEFAULT_THEME_ID[0];
    var rows := Recorded(host, map[], [plugin]);
    assert rows["x.y"] == RowOf(RecordOf(plugin));
    UsableRows(host, rows, [], "x.y");
    SameIds(host, [], "x.y");
  }

  lemma SameIds(host: ThemeRecord, plugins: seq<Descriptor>, id: ThemeId)
    ensures HasId(Catalog(host, plugins), id) <==> HasId(Listed(host, plugins), id)
  {
    hide Listed, Catalog, Wins;
    CatalogIsTheWinners(host, plugins);
    var c, listed := Catalog(host, plugins), Listed(host, plugins);
    if k :| 0 <= k < |c| && c[k].themeId == id { ListedAreTheWinners(host, plugins, c[k]); assert c[k] in listed; }
    if k :| 0 <= k < |listed| && listed[k].themeId == id {
      ListedAreTheWinners(host, plugins, listed[k]);
      assert listed[k] in c;
    }
  }

  lemma ListedRowExists(host: ThemeRecord, rows: map<ThemeId, Row>, plugins: seq<Descriptor>, t: ThemeRecord)
    requires t in Catalog(host, plugins)
    ensures t.themeId in Recorded(host, rows, plugins)
  {
    CatalogIsTheWinners(host, plugins);
    ListedAreTheWinners(host, plugins, t);
    ListedRows(host, rows, plugins, t);
  }

  // ---- the manager ----

  function Find(themes: seq<ThemeRecord>, id: ThemeId): (r: Option<ThemeRecord>)
    ensures r.Some? <==> HasId(themes, id)
    ensures r.Some? ==> r.value.themeId == id && r.value in themes
  {
    if themes == [] then None
    else if themes[0].themeId == id then Some(themes[0])
    else Find(themes[1..], id)
  }

  /** An unknown identifier stands for the first theme, the host's. */
  function Selected(themes: seq<ThemeRecord>, id: Option<ThemeId>): (t: ThemeRecord)
    requires themes != []
    ensures t in themes
    ensures id.Some? && HasId(themes, id.value) ==> t.themeId == id.value
    ensures id.None? || !HasId(themes, id.value) ==> t == themes[0]
  {
    if id.Some? && Find(themes, id.value).Some? then Find(themes, id.value).value else themes[0]
  }

  function StateOf(t: ThemeRecord): ThemeState { ThemeState(t.themeId, t.definition) }

  class Database {
    var rows: map<ThemeId, Row>
    /** The settings row, when it exists, and the active theme it names. */
    var settings: Option<Option<ThemeId>>

    /** The foreign key from the settings to the themes. */
    ghost predicate Valid()
      reads this
    {
      settings.Some? && settings.value.Some? ==> settings.value.value in rows
    }

    constructor (rows: map<ThemeId, Row>, settings: Option<Option<ThemeId>>)
      requires settings.Some? && settings.value.Some? ==> settings.value.value in rows
      ensures Valid() && this.rows == rows && this.settings == settings
    {
      this.rows := rows;
      this.settings := settings;
    }

    method UpsertTheme(id: ThemeId, row: Row)
      requires Valid()
      modifies this`rows
      ensures Valid() && rows == old(rows)[id := row]
    {
      rows := rows[id := row];
    }

    method PersistActiveTheme(id: ThemeId) returns (ok: bool)
      requires Valid() && id in rows
      modifies this`settings
      ensures Valid() && ok == old(settings).Some?
      ensures settings == if ok then Some(Some(id)) else None
    {
      ok := settings.Some?;
      if ok { settings := Some(Some(id)); }
    }
  }

  class ThemeManager {
    const database: Database
    const themes: seq<ThemeRecord>

    ghost predicate Valid()
      reads this, database
    {
      && database.Valid()
      && themes != [] && themes[0].themeId == DEFAULT_THEME_ID && UniqueIds(themes)
      && forall t :: t in themes ==> t.themeId in database.rows
    }

    constructor (database: Database, themes: seq<ThemeRecord>)
      ensures this.database == database && this.themes == themes
    {
      this.database := database;
      this.themes := themes;
    }

    static method Discover(database: Database, host: ThemeRecord, plugins: seq<Descriptor>)
      returns (r: Result<ThemeManager, ThemeError>)
      requires database.Valid() && host.themeId == DEFAULT_THEME_ID
      modifies database
      ensures database.rows == Recorded(host, old(database.rows), plugins)
      ensures r.Ok? <==> old(database.settings).Some?
      ensures r.Ok? ==>
                && fresh(r.value) && r.value.Valid()
                && r.value.database == database && r.value.themes == Catalog(host, plugins)
                && database.settings ==
                     Some(Some(Selected(Catalog(host, plugins), old(database.settings).value).themeId))
      ensures r.Err? ==> r.error == MissingSettings && database.settings == None
    {
      hide Wins, SortById, SortedById;
      database.rows := Stale(database.rows);
      database.UpsertTheme(host.themeId, RowOf(host));
      var themes := [host];
      for i := 0 to |plugins|
        invariant database.Valid() && database.settings == old(database.settings)
        invariant themes == Listed(host, plugins[..i])
        invariant database.rows == Recorded(host, old(database.rows), plugins[..i])
      {
        assert plugins[..i + 1][..i] == plugins[..i] && plugins[..i + 1][i] == plugins[i];
        var descriptor := plugins[i];
        if descriptor.theme.Some? && !HasId(themes, descriptor.theme.value.themeId) {
          var contribution := descriptor.theme.value;
          match contribution.loaded {
            case Ok(definition) =>
              if definition.themeId == contribution.themeId {
                var record := ThemeRecord(definition.themeId, descriptor.pluginId, descriptor.version, definition);
                database.UpsertTheme(record.themeId, RowOf(record));
                themes := themes + [record];
              } else {
                var row := Row(descriptor.pluginId, descriptor.version, Unusable(ReasonCode(IdMismatch)));
                database.UpsertTheme(contribution.themeId, row);
              }
            case Err(reason) =>
              database.UpsertTheme(contribution.themeId,
                  Row(descriptor.pluginId, descriptor.version, Unusable(ReasonCode(reason))));
          }
        }
      }
      assert plugins[..|plugins|] == plugins;
      themes := [themes[0]] + SortById(themes[1..]);
      CatalogIsTheWinners(host, plugins);
      forall t | t in themes
        ensures t.themeId in database.rows
      {
        ListedRowExists(host, old(database.rows), plugins, t);
      }
      var manager := new ThemeManager(database, themes);
      if database.settings.None? { return Err(MissingSettings); }
      var active := database.settings.value;
      if active.None? || !HasId(themes, active.value) {
        var persisted := database.PersistActiveTheme(themes[0].themeId);
      }
      r := Ok(manager);
    }

    method Current() returns (r: Result<ThemeState, ThemeError>)
      requires Valid()
      modifies database`settings
      ensures Valid()
      ensures old(database.settings).None? ==> r == Err(MissingSettings) && database.settings == None
      ensures old(database.settings).Some? ==>
                var selected := Selected(themes, old(database.settings).value);
                r == Ok(StateOf(selected)) && database.settings == Some(Some(selected.themeId))
    {
      if database.settings.None? { return Err(MissingSettings); }
      var active := database.settings.value;
      var selected := if active.Some? then Find(themes, active.value) else None;
      if selected.None? {
        var persisted := database.PersistActiveTheme(DEFAULT_THEME_ID);
        selected := Find(themes, DEFAULT_THEME_ID);
      }
      r := Ok(StateOf(selected.value));
    }

    method Activate(id: ThemeId) returns (r: Result<ThemeState, ThemeError>)
      requires Valid()
      modifies database`settings
      ensures Valid()
      ensures old(database.settings).None? ==> r == Err(MissingSettings) && database.settings == None
      ensures old(database.settings).Some? ==>
                var selected := Selected(themes, Some(id));
                r == Ok(StateOf(selected)) && database.settings == Some(Some(selected.themeId))
    {
      var selected := Find(themes, id);
      if selected.None? { selected := Find(themes, DEFAULT_THEME_ID); }
      var persisted := database.PersistActiveTheme(selected.value.themeId);
      if !persisted { return Err(MissingSettings); }
      r := Ok(StateOf(selected.value));
    }
  }

  /** Reading back what was activated, or what discovery repaired, selects the same theme. */
  lemma SelectionIsStable(themes: seq<ThemeRecord>, id: Option<ThemeId>)
    requires themes != [] && UniqueIds(themes)
    ensures Selected(themes, Some(Selected(themes, id).themeId)) == Selected(themes, id)
  {
    var t := Selected(themes, id);
    assert HasId(themes, t.themeId);
    assert Selected(themes, Some(t.themeId)).themeId == t.themeId;
  }
}
