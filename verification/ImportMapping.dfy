/** cmd/hoserva/migrate.go, importMapping: the scan's proposed disk roles with
    the user's --role and --cache-partition entries over them. */
module ImportMapping {
  import opened Wrappers

  datatype Role = Parity | Data | Cache | Ignore

  /** A row of the scan's disk table; "" is an identity the disk does not have. */
  datatype Row = Row(serial: string, wwn: string, proposed: Option<Role>, refused: bool, hostBoot: bool)
  datatype Key = Key(serial: string, wwn: string)
  datatype Entry = Entry(role: Role, serial: string, wwn: string, byId: string, partUuid: string)

  datatype Failure = BadRole(role: string) | BadPartition(partition: string) | NoMapping
  datatype Result = Ok(entries: seq<Entry>) | Err(failure: Failure)

  /** What simple case folding makes of a character. */
  type Fold = char -> char

  // ----- text -----

  /** strings.EqualFold */
  predicate EqualFold(fold: Fold, a: string, b: string) {
    |a| == |b| && forall i :: 0 <= i < |a| ==> fold(a[i]) == fold(b[i])
  }

  /** strings.Cut at the first sep. */
  function Cut(s: string, sep: char): (r: Option<(string, string)>)
    ensures r.Some? ==> sep !in r.value.0 && s == r.value.0 + [sep] + r.value.1
    ensures r.None? ==> sep !in s
  {
    if s == "" then None
    else if s[0] == sep then Some(("", s[1..]))
    else
      match Cut(s[1..], sep)
      case None => None
      case Some(p) => Some(([s[0]] + p.0, p.1))
  }

  /** Nothing else splits a text that way. */
  lemma {:induction false} CutIsUnique(a: string, sep: char, b: string)
    requires sep !in a
    ensures Cut(a + [sep] + b, sep) == Some((a, b))
  {
    var s := a + [sep] + b;
    if a == "" {
      assert s[1..] == b;
    } else {
      CutIsUnique(a[1..], sep, b);
      assert s[0] == a[0] && s[1..] == a[1..] + [sep] + b;
      assert [a[0]] + a[1..] == a;
    }
  }

  function RoleOf(s: string): (r: Option<Role>) {
    if s == "parity" then Some(Parity)
    else if s == "data" then Some(Data)
    else if s == "cache" then Some(Cache)
    else if s == "ignore" then Some(Ignore)
    else None
  }

  /** The disk and the role of a --role entry. */
  function ParseRole(spec: string): (r: Option<(Key, Role)>) {
    match Cut(spec, '=')
    case None => None
    case Some((id, role)) =>
      if id == "" || RoleOf(role).None? then None
      else if "wwn:" <= id then Some((Key("", id[4..]), RoleOf(role).value))
      else Some((Key(id, ""), RoleOf(role).value))
  }

  function ParsePartition(spec: string): (r: Option<Entry>) {
    match Cut(spec, ':')
    case None => None
    case Some((byId, part)) => if byId == "" || part == "" then None else Some(Entry(Cache, "", "", byId, part))
  }

  /** The role a --role names. */
  ghost predicate RoleText(text: string, role: Role) {
    || (text == "parity" && role == Parity) || (text == "data" && role == Data)
    || (text == "cache" && role == Cache) || (text == "ignore" && role == Ignore)
  }

  /** A disk named by its serial. */
  lemma SerialRole(id: string, text: string, role: Role)
    requires '=' !in id && id != "" && !("wwn:" <= id) && RoleText(text, role)
    ensures ParseRole(id + "=" + text) == Some((Key(id, ""), role))
  {
    CutIsUnique(id, '=', text);
  }

  /** A disk named by its WWN. */
  lemma WwnRole(wwn: string, text: string, role: Role)
    requires '=' !in wwn && RoleText(text, role)
    ensures ParseRole("wwn:" + wwn + "=" + text) == Some((Key("", wwn), role))
  {
    CutIsUnique("wwn:" + wwn, '=', text);
    assert ("wwn:" + wwn)[4..] == wwn;
  }

  /** Nothing else is an entry: not without a name or without one of the four
      roles after the first '='. */
  lemma NoRole(id: string, text: string)
    requires '=' !in id && (id == "" || forall role :: !RoleText(text, role))
    ensures ParseRole(id + "=" + text).None? && ParseRole(id).None?
  {
    CutIsUnique(id, '=', text);
    if id != "" {
      assert !RoleText(text, Parity) && !RoleText(text, Data) && !RoleText(text, Cache) && !RoleText(text, Ignore);
    }
  }

  /** A cache partition: the by-id name before the first ':', the partition's UUID
      after it, and both are needed. */
  lemma PartitionEntry(byId: string, part: string)
    requires ':' !in byId
    ensures ParsePartition(byId + ":" + part) ==
            if byId == "" || part == "" then None else Some(Entry(Cache, "", "", byId, part))
  {
    CutIsUnique(byId, ':', part);
  }

  lemma NoPartition(spec: string)
    requires ':' !in spec
    ensures ParsePartition(spec).None?
  {
  }

  // ----- which disk -----

  /** The key names the disk of the row. */
  predicate Names(fold: Fold, k: Key, d: Row) {
    (k.wwn != "" && EqualFold(fold, d.wwn, k.wwn)) || (k.serial != "" && d.serial == k.serial)
  }

  predicate HasKey(d: Row) {
    d.wwn != "" || d.serial != ""
  }

  /** How the mapping names a disk of the table: by WWN when it has one. */
  function KeyOf(d: Row): (k: Key) {
    if d.wwn != "" then Key("", d.wwn) else Key(d.serial, "")
  }

  /** A proposal that is sent: not ignore, not refused, and not a whole boot
      disk as the cache. */
  predicate Sent(d: Row) {
    d.proposed.Some? && !d.proposed.value.Ignore? && !d.refused && !(d.proposed.value.Cache? && d.hostBoot) && HasKey(d)
  }

  function RowKey(fold: Fold, rows: seq<Row>, k: Key): (r: Key) {
    if rows == [] then k
    else if Names(fold, k, rows[0]) then KeyOf(rows[0])
    else RowKey(fold, rows[1..], k)
  }

  method FindRowKey(fold: Fold, rows: seq<Row>, k: Key) returns (r: Key)
    ensures r == RowKey(fold, rows, k)
  {
    for n := 0 to |rows|
      invariant RowKey(fold, rows, k) == RowKey(fold, rows[n..], k)
    {
      assert rows[n..][1..] == rows[n + 1..];
      if Names(fold, k, rows[n]) {
        return KeyOf(rows[n]);
      }
    }
    return k;
  }

  // ----- the mapping as a list of settings -----

  type Settings = seq<(Key, Role)>

  function Proposals(rows: seq<Row>): (r: Settings) {
    if rows == [] then []
    else
      var d := rows[|rows| - 1];
      Proposals(rows[..|rows| - 1]) + if Sent(d) then [(KeyOf(d), d.proposed.value)] else []
  }

  function Overrides(fold: Fold, rows: seq<Row>, specs: seq<string>): (r: Option<Settings>) {
    if specs == [] then Some([])
    else
      var before, last := Overrides(fold, rows, specs[..|specs| - 1]), ParseRole(specs[|specs| - 1]);
      if before.None? || last.None? then None
      else Some(before.value + [(RowKey(fold, rows, last.value.0), last.value.1)])
  }

  /** The keys in the order they first appear. */
  function FirstSeen(s: Settings): (r: seq<Key>) {
    if s == [] then []
    else
      var before, k := FirstSeen(s[..|s| - 1]), s[|s| - 1].0;
      if k in before then before else before + [k]
  }

  /** The last role each key is given. */
  function Roles(s: Settings): (r: map<Key, Role>) {
    if s == [] then map[] else Roles(s[..|s| - 1])[s[|s| - 1].0 := s[|s| - 1].1]
  }

  lemma ProposalsStep(rows: seq<Row>, n: nat)
    requires 0 < n <= |rows|
    ensures var before, d := Proposals(rows[..n - 1]), rows[n - 1];
            Proposals(rows[..n]) == if Sent(d) then before + [(KeyOf(d), d.proposed.value)] else before
  {
    assert rows[..n][..n - 1] == rows[..n - 1] && rows[..n][n - 1] == rows[n - 1];
    assert Proposals(rows[..n - 1]) + [] == Proposals(rows[..n - 1]);
  }

  lemma RolesStep(s: Settings, k: Key, r: Role)
    ensures Roles(s + [(k, r)]) == Roles(s)[k := r]
  {
    assert (s + [(k, r)])[..|s|] == s;
  }

  lemma {:induction false} FirstSeenIsExact(s: Settings)
    ensures forall k :: k in FirstSeen(s) <==> k in Roles(s)
    ensures forall i, j :: 0 <= i < j < |FirstSeen(s)| ==> FirstSeen(s)[i] != FirstSeen(s)[j]
    decreases |s|
  {
    if s != [] {
      FirstSeenIsExact(s[..|s| - 1]);
    }
  }

  function EntryOf(k: Key, r: Role): (e: Entry) {
    if k.wwn != "" then Entry(r, "", k.wwn, "", "") else Entry(r, k.serial, "", "", "")
  }

  function Partitions(specs: seq<string>): (r: Option<seq<Entry>>) {
    if specs == [] then Some([])
    else
      var before, last := Partitions(specs[..|specs| - 1]), ParsePartition(specs[|specs| - 1]);
      if before.None? || last.None? then None else Some(before.value + [last.value])
  }

  /** One entry a key, in order, with its last role. */
  ghost predicate Lists(entries: seq<Entry>, s: Settings) {
    |entries| == |FirstSeen(s)| &&
    forall i :: 0 <= i < |entries| ==>
      FirstSeen(s)[i] in Roles(s) && entries[i] == EntryOf(FirstSeen(s)[i], Roles(s)[FirstSeen(s)[i]])
  }

  /** set: a key keeps its place and takes the new role. */
  method Set(order: seq<Key>, byKey: map<Key, Role>, k: Key, r: Role, ghost s: Settings)
    returns (order': seq<Key>, byKey': map<Key, Role>)
    requires order == FirstSeen(s) && byKey == Roles(s)
    ensures order' == FirstSeen(s + [(k, r)]) && byKey' == Roles(s + [(k, r)])
  {
    FirstSeenIsExact(s);
    assert (s + [(k, r)])[..|s|] == s;
    order' := if k in byKey then order else order + [k];
    byKey' := byKey[k := r];
  }

  method ProposedRoles(rows: seq<Row>) returns (order: seq<Key>, byKey: map<Key, Role>)
    ensures order == FirstSeen(Proposals(rows)) && byKey == Roles(Proposals(rows))
  {
    order, byKey := [], map[];
    for n := 0 to |rows|
      invariant order == FirstSeen(Proposals(rows[..n])) && byKey == Roles(Proposals(rows[..n]))
    {
      var d := rows[n];
      assert rows[..n + 1][..n] == rows[..n] && Proposals(rows[..n]) + [] == Proposals(rows[..n]);
      if d.proposed.None? || d.proposed.value.Ignore? || d.refused {
        continue;
      }
      if d.proposed.value.Cache? && d.hostBoot {
        continue;
      }
      if d.wwn != "" {
        order, byKey := Set(order, byKey, Key("", d.wwn), d.proposed.value, Proposals(rows[..n]));
      } else if d.serial != "" {
        order, byKey := Set(order, byKey, Key(d.serial, ""), d.proposed.value, Proposals(rows[..n]));
      }
    }
    assert rows[..|rows|] == rows;
  }

  ghost predicate FirstBadRole(specs: seq<string>, bad: string) {
    exists n :: 0 <= n < |specs| && specs[n] == bad && ParseRole(bad).None? &&
      forall k :: 0 <= k < n ==> ParseRole(specs[k]).Some?
  }

  ghost predicate FirstBadPartition(specs: seq<string>, bad: string) {
    exists n :: 0 <= n < |specs| && specs[n] == bad && ParsePartition(bad).None? &&
      forall k :: 0 <= k < n ==> ParsePartition(specs[k]).Some?
  }

  /** All that is set, in order. */
  ghost function SettingsOf(fold: Fold, rows: seq<Row>, specs: seq<string>): (s: Settings)
    requires Overrides(fold, rows, specs).Some?
  {
    Proposals(rows) + Overrides(fold, rows, specs).value
  }

  lemma IsFirstBadRole(specs: seq<string>, n: nat)
    requires n < |specs| && ParseRole(specs[n]).None? && forall k :: 0 <= k < n ==> ParseRole(specs[k]).Some?
    ensures FirstBadRole(specs, specs[n])
  {
  }

  lemma OverridesStep(fold: Fold, rows: seq<Row>, specs: seq<string>, n: nat)
    requires n < |specs| && Overrides(fold, rows, specs[..n]).Some? && ParseRole(specs[n]).Some?
    ensures var last := ParseRole(specs[n]).value;
            && Overrides(fold, rows, specs[..n + 1]).Some?
            && SettingsOf(fold, rows, specs[..n + 1]) ==
               SettingsOf(fold, rows, specs[..n]) + [(RowKey(fold, rows, last.0), last.1)]
  {
    assert specs[..n + 1][..n] == specs[..n];
  }

  /** The --role entries, over what was set before. */
  method Override(fold: Fold, rows: seq<Row>, roles: seq<string>, order0: seq<Key>, byKey0: map<Key, Role>)
    returns (bad: Option<string>, order: seq<Key>, byKey: map<Key, Role>)
    requires order0 == FirstSeen(Proposals(rows)) && byKey0 == Roles(Proposals(rows))
    ensures bad.None? <==> Overrides(fold, rows, roles).Some?
    ensures bad.Some? ==> FirstBadRole(roles, bad.value)
    ensures bad.None? ==>
      var s := SettingsOf(fold, rows, roles); order == FirstSeen(s) && byKey == Roles(s)
  {
    assert Overrides(fold, rows, roles[..0]) == Some([]) && SettingsOf(fold, rows, roles[..0]) == Proposals(rows);
    hide RowKey, FirstSeen, Roles, Proposals, ParseRole, Overrides, SettingsOf, FirstBadRole;
    order, byKey := order0, byKey0;
    for n := 0 to |roles|
      invariant forall k :: 0 <= k < n ==> ParseRole(roles[k]).Some?
      invariant Overrides(fold, rows, roles[..n]).Some?
      invariant order == FirstSeen(SettingsOf(fold, rows, roles[..n]))
      invariant byKey == Roles(SettingsOf(fold, rows, roles[..n]))
    {
      var parsed := ParseRole(roles[n]);
      if parsed.None? {
        IsFirstBadRole(roles, n);
        OneBadRole(fold, rows, roles, n);
        return Some(roles[n]), order, byKey;
      }
      order, byKey := OverrideOne(fold, rows, roles, n, order, byKey);
    }
    assert roles[..|roles|] == roles;
    bad := None;
  }

  /** One --role entry. */
  method OverrideOne(fold: Fold, rows: seq<Row>, roles: seq<string>, n: nat, order0: seq<Key>, byKey0: map<Key, Role>)
    returns (order: seq<Key>, byKey: map<Key, Role>)
    requires n < |roles| && ParseRole(roles[n]).Some? && Overrides(fold, rows, roles[..n]).Some?
    requires order0 == FirstSeen(SettingsOf(fold, rows, roles[..n]))
    requires byKey0 == Roles(SettingsOf(fold, rows, roles[..n]))
    ensures Overrides(fold, rows, roles[..n + 1]).Some?
    ensures order == FirstSeen(SettingsOf(fold, rows, roles[..n + 1]))
    ensures byKey == Roles(SettingsOf(fold, rows, roles[..n + 1]))
  {
    OverridesStep(fold, rows, roles, n);
    hide RowKey, FirstSeen, Roles, ParseRole, Overrides, SettingsOf;
    var parsed := ParseRole(roles[n]).value;
    var k := FindRowKey(fold, rows, parsed.0);
    order, byKey := Set(order0, byKey0, k, parsed.1, SettingsOf(fold, rows, roles[..n]));
  }

  method CachePartitions(specs: seq<string>) returns (bad: Option<string>, entries: seq<Entry>)
    ensures bad.None? <==> Partitions(specs).Some?
    ensures bad.Some? ==> FirstBadPartition(specs, bad.value)
    ensures bad.None? ==> Partitions(specs) == Some(entries) && |entries| == |specs|
  {
    entries := [];
    for n := 0 to |specs|
      invariant forall k :: 0 <= k < n ==> ParsePartition(specs[k]).Some?
      invariant Partitions(specs[..n]) == Some(entries) && |entries| == n
    {
      assert specs[..n + 1][..n] == specs[..n];
      var e := ParsePartition(specs[n]);
      if e.None? {
        OneBadPartition(specs, n);
        return Some(specs[n]), entries;
      }
      entries := entries + [e.value];
    }
    assert specs[..|specs|] == specs;
    bad := None;
  }

  method ImportMapping(fold: Fold, rows: seq<Row>, roles: seq<string>, partitions: seq<string>) returns (r: Result)
    ensures r.Ok? <==>
      && Overrides(fold, rows, roles).Some? && Partitions(partitions).Some?
      && (Proposals(rows) != [] || roles != [] || partitions != [])
    ensures r.Ok? ==>
      && |partitions| <= |r.entries|
      && var n := |r.entries| - |partitions|;
         && Lists(r.entries[..n], SettingsOf(fold, rows, roles))
         && Partitions(partitions) == Some(r.entries[n..])
    ensures r.Err? && r.failure.NoMapping? ==> Proposals(rows) == [] && roles == [] && partitions == []
    ensures r.Err? && r.failure.BadRole? ==> FirstBadRole(roles, r.failure.role)
    ensures r.Err? && r.failure.BadPartition? ==>
      && Overrides(fold, rows, roles).Some?
      && FirstBadPartition(partitions, r.failure.partition)
  {
    hide Proposals, Partitions, FirstSeen, Roles, ParseRole, ParsePartition;
    var order0, byKey0 := ProposedRoles(rows);
    var badRole, order, byKey := Override(fold, rows, roles, order0, byKey0);
    if badRole.Some? {
      return Err(BadRole(badRole.value));
    }
    ghost var s := SettingsOf(fold, rows, roles);
    FirstSeenIsExact(s);
    SomethingSeen(s);
    OneSettingARole(fold, rows, roles);
    var out := ListEntries(order, byKey, s);
    var bad, extra := CachePartitions(partitions);
    if bad.Some? {
      return Err(BadPartition(bad.value));
    }
    if out + extra == [] {
      return Err(NoMapping);
    }
    assert (out + extra)[..|out|] == out && (out + extra)[|out|..] == extra;
    return Ok(out + extra);
  }

  /** One entry a key, in order. */
  method ListEntries(order: seq<Key>, byKey: map<Key, Role>, ghost s: Settings) returns (out: seq<Entry>)
    requires order == FirstSeen(s) && byKey == Roles(s)
    ensures Lists(out, s)
  {
    FirstSeenIsExact(s);
    hide FirstSeen, Roles;
    out := [];
    for n := 0 to |order|
      invariant |out| == n && forall i :: 0 <= i < n ==> out[i] == EntryOf(order[i], byKey[order[i]])
    {
      out := out + [EntryOf(order[n], byKey[order[n]])];
    }
  }

  lemma {:induction false} OneSettingARole(fold: Fold, rows: seq<Row>, specs: seq<string>)
    requires Overrides(fold, rows, specs).Some?
    ensures |Overrides(fold, rows, specs).value| == |specs|
    decreases |specs|
  {
    if specs != [] {
      OneSettingARole(fold, rows, specs[..|specs| - 1]);
    }
  }

  lemma {:induction false} SomethingSeen(s: Settings)
    ensures s != [] <==> FirstSeen(s) != []
  {
    if |s| > 1 {
      SomethingSeen(s[..|s| - 1]);
    }
  }

  lemma {:induction false} OneBadRole(fold: Fold, rows: seq<Row>, specs: seq<string>, n: nat)
    requires n < |specs| && ParseRole(specs[n]).None?
    ensures Overrides(fold, rows, specs).None?
    decreases |specs|
  {
    if n < |specs| - 1 {
      OneBadRole(fold, rows, specs[..|specs| - 1], n);
    }
  }

  lemma {:induction false} OneBadPartition(specs: seq<string>, n: nat)
    requires n < |specs| && ParsePartition(specs[n]).None?
    ensures Partitions(specs).None?
    decreases |specs|
  {
    if n < |specs| - 1 {
      OneBadPartition(specs[..|specs| - 1], n);
    }
  }

  /** A --role that names a disk by its serial, or by its WWN in any case, takes
      the key of that disk's row in a table of one. */
  lemma NamedInAnyCase(fold: Fold, d: Row, wwn: string)
    requires wwn != "" && |d.wwn| == |wwn| && forall i :: 0 <= i < |wwn| ==> fold(d.wwn[i]) == fold(wwn[i])
    ensures RowKey(fold, [d], Key("", wwn)) == Key("", d.wwn)
    ensures d.serial != "" ==> RowKey(fold, [d], Key(d.serial, "")) == Key("", d.wwn)
  {
  }

  /** And one that names neither leaves the table alone. */
  lemma NamedByNothingElse(fold: Fold, d: Row, serial: string, wwn: string)
    requires |d.wwn| != |wwn| || exists i :: 0 <= i < |wwn| && fold(d.wwn[i]) != fold(wwn[i])
    requires d.serial != serial
    ensures RowKey(fold, [d], Key("", wwn)) == Key("", wwn) && RowKey(fold, [d], Key(serial, "")) == Key(serial, "")
  {
  }

  // ----- one entry a disk -----

  /** No two rows share a serial, or a WWN in any case. */
  ghost predicate Distinct(fold: Fold, rows: seq<Row>) {
    && (forall i, j :: 0 <= i < j < |rows| && rows[i].serial != "" ==> rows[i].serial != rows[j].serial)
    && (forall i, j :: 0 <= i < j < |rows| && rows[i].wwn != "" ==> !EqualFold(fold, rows[i].wwn, rows[j].wwn))
  }

  /** One of serial and WWN, as every key of a mapping is. */
  predicate Single(k: Key) {
    k.serial == "" || k.wwn == ""
  }

  lemma NamesOne(fold: Fold, rows: seq<Row>, k: Key, i: nat, j: nat)
    requires Distinct(fold, rows) && Single(k) && i < |rows| && j < |rows|
    requires Names(fold, k, rows[i]) && Names(fold, k, rows[j])
    ensures i == j
  {
    if k.wwn != "" {
      assert EqualFold(fold, rows[i].wwn, rows[j].wwn) && EqualFold(fold, rows[j].wwn, rows[i].wwn);
    }
  }

  lemma KeysDiffer(fold: Fold, rows: seq<Row>, i: nat, j: nat)
    requires Distinct(fold, rows) && i < |rows| && j < |rows| && i != j && HasKey(rows[i])
    ensures KeyOf(rows[i]) != KeyOf(rows[j])
  {
  }

  /** A key is turned into the key of the row it names, and into no other's. */
  lemma {:induction false} RowKeyIsTheNamed(fold: Fold, rows: seq<Row>, k: Key, i: nat)
    requires Distinct(fold, rows) && Single(k) && i < |rows| && HasKey(rows[i])
    ensures RowKey(fold, rows, k) == KeyOf(rows[i]) <==> Names(fold, k, rows[i])
    ensures Names(fold, RowKey(fold, rows, k), rows[i]) <==> Names(fold, k, rows[i])
  {
    var f := FirstNamed(fold, rows, k);
    assert Names(fold, KeyOf(rows[i]), rows[i]);
    if f < |rows| {
      assert Names(fold, KeyOf(rows[f]), rows[f]);
      if Names(fold, k, rows[i]) {
        NamesOne(fold, rows, k, i, f);
      } else if Names(fold, KeyOf(rows[f]), rows[i]) {
        NamesOne(fold, rows, KeyOf(rows[f]), i, f);
      }
    }
  }

  lemma {:induction false} FirstNamed(fold: Fold, rows: seq<Row>, k: Key) returns (f: nat)
    ensures f <= |rows| && (forall j :: 0 <= j < f ==> !Names(fold, k, rows[j]))
    ensures f < |rows| ==> Names(fold, k, rows[f]) && HasKey(rows[f]) && RowKey(fold, rows, k) == KeyOf(rows[f])
    ensures f == |rows| ==> RowKey(fold, rows, k) == k
  {
    f := 0;
    if rows != [] && !Names(fold, k, rows[0]) {
      f := FirstNamed(fold, rows[1..], k);
      f := f + 1;
    }
  }

  /** The role the last --role that names the disk gives it. */
  ghost function LastNaming(fold: Fold, specs: seq<string>, d: Row): (r: Option<Role>) {
    if specs == [] then None
    else
      var last := ParseRole(specs[|specs| - 1]);
      if last.Some? && Names(fold, last.value.0, d) then Some(last.value.1)
      else LastNaming(fold, specs[..|specs| - 1], d)
  }

  /** The role a disk of the table is to have: by the user, else by the scan. */
  ghost function RoleFor(fold: Fold, specs: seq<string>, d: Row): (r: Option<Role>) {
    if LastNaming(fold, specs, d).Some? then LastNaming(fold, specs, d)
    else if Sent(d) then d.proposed
    else None
  }

  ghost function Look(m: map<Key, Role>, k: Key): (r: Option<Role>) {
    if k in m then Some(m[k]) else None
  }

  lemma {:induction false} ProposedFor(fold: Fold, rows: seq<Row>, i: nat, d: Row, n: nat)
    requires Distinct(fold, rows) && i < |rows| && d == rows[i] && HasKey(d) && n <= |rows|
    ensures Look(Roles(Proposals(rows[..n])), KeyOf(d)) == if i < n && Sent(d) then d.proposed else None
  {
    if n > 0 {
      var last := rows[n - 1];
      ProposedFor(fold, rows, i, d, n - 1);
      ProposalsStep(rows, n);
      if Sent(last) {
        RolesStep(Proposals(rows[..n - 1]), KeyOf(last), last.proposed.value);
        if n - 1 != i {
          KeysDiffer(fold, rows, i, n - 1);
        }
      }
      hide Distinct, Proposals, Roles, EqualFold, Names;
    }
  }

  lemma OwnKeyNames(fold: Fold, d: Row)
    requires HasKey(d)
    ensures Names(fold, KeyOf(d), d) && Single(KeyOf(d))
  {
  }

  lemma {:induction false} OverriddenFor(fold: Fold, rows: seq<Row>, i: nat, specs: seq<string>)
    requires Distinct(fold, rows) && i < |rows| && HasKey(rows[i]) && Overrides(fold, rows, specs).Some?
    ensures var s := Proposals(rows) + Overrides(fold, rows, specs).value;
            Look(Roles(s), KeyOf(rows[i])) == RoleFor(fold, specs, rows[i])
    decreases |specs|
  {
    if specs == [] {
      ProposedFor(fold, rows, i, rows[i], |rows|);
      assert rows[..|rows|] == rows && Proposals(rows) + [] == Proposals(rows);
    } else {
      var shorter := specs[..|specs| - 1];
      OverriddenFor(fold, rows, i, shorter);
      var before := Proposals(rows) + Overrides(fold, rows, shorter).value;
      var last := ParseRole(specs[|specs| - 1]).value;
      var next := before + [(RowKey(fold, rows, last.0), last.1)];
      assert next == Proposals(rows) + Overrides(fold, rows, specs).value && next[..|before|] == before;
      RowKeyIsTheNamed(fold, rows, last.0, i);
    }
  }

  // ----- which rows are set -----

  /** The row a key means: the first it names. */
  ghost predicate MeansRow(fold: Fold, rows: seq<Row>, k: Key, j: nat) {
    j < |rows| && Names(fold, k, rows[j]) && forall i :: 0 <= i < j ==> !Names(fold, k, rows[i])
  }

  /** A row the mapping sets: its proposal is sent, or a --role means it. */
  ghost predicate SetRow(fold: Fold, rows: seq<Row>, specs: seq<string>, j: nat) {
    && j < |rows|
    && (Sent(rows[j]) ||
        exists q ::
          && 0 <= q < |specs| && ParseRole(specs[q]).Some?
          && MeansRow(fold, rows, ParseRole(specs[q]).value.0, j))
  }

  lemma {:induction false} ProposalIsOfARow(rows: seq<Row>, q: nat) returns (j: nat)
    requires q < |Proposals(rows)|
    ensures j < |rows| && Sent(rows[j]) && Proposals(rows)[q].0 == KeyOf(rows[j])
    decreases |rows|
  {
    if q < |Proposals(rows[..|rows| - 1])| {
      j := ProposalIsOfARow(rows[..|rows| - 1], q);
    } else {
      j := |rows| - 1;
    }
  }

  lemma {:induction false} SentIsProposed(rows: seq<Row>, j: nat) returns (q: nat)
    requires j < |rows| && Sent(rows[j])
    ensures q < |Proposals(rows)| && Proposals(rows)[q].0 == KeyOf(rows[j])
    decreases |rows|
  {
    if j < |rows| - 1 {
      q := SentIsProposed(rows[..|rows| - 1], j);
    } else {
      q := |Proposals(rows[..|rows| - 1])|;
    }
  }

  lemma {:induction false} OverrideAt(fold: Fold, rows: seq<Row>, specs: seq<string>, q: nat)
    requires Overrides(fold, rows, specs).Some? && q < |specs|
    ensures |Overrides(fold, rows, specs).value| == |specs| && ParseRole(specs[q]).Some?
    ensures Overrides(fold, rows, specs).value[q].0 == RowKey(fold, rows, ParseRole(specs[q]).value.0)
    decreases |specs|
  {
    OneSettingARole(fold, rows, specs);
    OneSettingARole(fold, rows, specs[..|specs| - 1]);
    if q < |specs| - 1 {
      OverrideAt(fold, rows, specs[..|specs| - 1], q);
    }
  }

  /** A setting whose key names some row is the setting of a set row. */
  lemma SettingIsOfASetRow(fold: Fold, rows: seq<Row>, specs: seq<string>, q: nat, i: nat) returns (j: nat)
    requires Overrides(fold, rows, specs).Some? && q < |SettingsOf(fold, rows, specs)| && i < |rows|
    requires Names(fold, SettingsOf(fold, rows, specs)[q].0, rows[i])
    ensures SetRow(fold, rows, specs, j) && HasKey(rows[j])
    ensures SettingsOf(fold, rows, specs)[q].0 == KeyOf(rows[j])
  {
    hide Names, Sent, Overrides, Proposals;
    if q < |Proposals(rows)| {
      j := ProposalIsOfARow(rows, q);
      SentHasKey(rows[j]);
    } else {
      var p := q - |Proposals(rows)|;
      OneSettingARole(fold, rows, specs);
      OverrideAt(fold, rows, specs, p);
      j := FirstNamed(fold, rows, ParseRole(specs[p]).value.0);
    }
  }

  lemma SentHasKey(d: Row)
    requires Sent(d)
    ensures HasKey(d)
  {
  }

  /** And every set row has a setting. */
  lemma SetRowHasASetting(fold: Fold, rows: seq<Row>, specs: seq<string>, j: nat) returns (q: nat)
    requires Overrides(fold, rows, specs).Some? && SetRow(fold, rows, specs, j)
    ensures q < |SettingsOf(fold, rows, specs)| && SettingsOf(fold, rows, specs)[q].0 == KeyOf(rows[j])
  {
    hide Names, Sent, Overrides, Proposals, ParseRole;
    if Sent(rows[j]) {
      q := SentIsProposed(rows, j);
    } else {
      var p :| 0 <= p < |specs| && ParseRole(specs[p]).Some? && MeansRow(fold, rows, ParseRole(specs[p]).value.0, j);
      OverrideAt(fold, rows, specs, p);
      var f := FirstNamed(fold, rows, ParseRole(specs[p]).value.0);
      assert f == j;
      q := |Proposals(rows)| + p;
    }
  }

  /** Every key of a mapping that names a disk of the table is that disk's own. */
  lemma NamingKeyIsOwn(fold: Fold, rows: seq<Row>, i: nat, specs: seq<string>, s: Settings, k: Key)
    requires Distinct(fold, rows) && i < |rows| && Overrides(fold, rows, specs).Some?
    requires s == SettingsOf(fold, rows, specs) && k in FirstSeen(s) && Names(fold, k, rows[i])
    ensures k == KeyOf(rows[i])
  {
    hide Distinct, Names, SetRow, HasKey, KeyOf;
    var a :| 0 <= a < |FirstSeen(s)| && FirstSeen(s)[a] == k;
    var q := SeenAt(s, a);
    var j := SettingIsOfASetRow(fold, rows, specs, q, i);
    SetRowIsARow(fold, rows, specs, j);
    OwnKeyNames(fold, rows[j]);
    NamesOne(fold, rows, k, i, j);
  }

  lemma SetRowIsARow(fold: Fold, rows: seq<Row>, specs: seq<string>, j: nat)
    requires SetRow(fold, rows, specs, j)
    ensures j < |rows|
  {
  }

  predicate EntryNames(fold: Fold, e: Entry, d: Row) {
    Names(fold, Key(e.serial, e.wwn), d)
  }

  /** Over a table of distinct disks: at most one entry names a disk of it,
      there is one exactly when the user or the scan gives the disk a role, and
      it has that role. */
  lemma OneEntryPerDisk(fold: Fold, rows: seq<Row>, specs: seq<string>, entries: seq<Entry>, i: nat)
    requires Distinct(fold, rows) && i < |rows| && Overrides(fold, rows, specs).Some?
    requires Lists(entries, SettingsOf(fold, rows, specs))
    ensures forall a, b :: 0 <= a < b < |entries| ==>
      !(EntryNames(fold, entries[a], rows[i]) && EntryNames(fold, entries[b], rows[i]))
    ensures RoleFor(fold, specs, rows[i]).Some? <==>
      exists a :: 0 <= a < |entries| && EntryNames(fold, entries[a], rows[i])
    ensures forall a :: 0 <= a < |entries| && EntryNames(fold, entries[a], rows[i]) ==>
      RoleFor(fold, specs, rows[i]) == Some(entries[a].role)
  {
    var s := SettingsOf(fold, rows, specs);
    var keys := FirstSeen(s);
    FirstSeenIsExact(s);
    forall a | 0 <= a < |entries| && EntryNames(fold, entries[a], rows[i])
      ensures keys[a] == KeyOf(rows[i]) && RoleFor(fold, specs, rows[i]) == Some(entries[a].role)
    {
      assert Names(fold, keys[a], rows[i]);
      NamingKeyIsOwn(fold, rows, i, specs, s, keys[a]);
      OverriddenFor(fold, rows, i, specs);
    }
    if RoleFor(fold, specs, rows[i]).Some? {
      RoleNeedsAKey(fold, specs, rows[i]);
      OverriddenFor(fold, rows, i, specs);
      var a :| 0 <= a < |keys| && keys[a] == KeyOf(rows[i]);
      assert EntryNames(fold, entries[a], rows[i]);
    }
  }

  lemma {:induction false} RoleNeedsAKey(fold: Fold, specs: seq<string>, d: Row)
    requires RoleFor(fold, specs, d).Some?
    ensures HasKey(d)
    decreases |specs|
  {
    if LastNaming(fold, specs, d).Some? {
      var last := ParseRole(specs[|specs| - 1]);
      if !(last.Some? && Names(fold, last.value.0, d)) {
        RoleNeedsAKey(fold, specs[..|specs| - 1], d);
      }
    }
  }

  // ----- order -----

  /** Entries are in the order their disks were first set. */
  lemma {:induction false} FirstSeenInOrder(s: Settings, i: nat, j: nat) returns (p: nat)
    requires i < j < |FirstSeen(s)|
    ensures p < |s| && s[p].0 == FirstSeen(s)[i] && forall q :: 0 <= q <= p ==> s[q].0 != FirstSeen(s)[j]
    decreases |s|
  {
    var shorter := s[..|s| - 1];
    FirstSeenIsExact(s);
    if j < |FirstSeen(shorter)| {
      p := FirstSeenInOrder(shorter, i, j);
      assert forall q :: 0 <= q <= p ==> s[q] == shorter[q];
    } else {
      p := SeenAt(shorter, i);
      forall q | 0 <= q <= p
        ensures s[q].0 != FirstSeen(s)[j]
      {
        SettingIsSeen(shorter, q);
        assert s[q] == shorter[q];
      }
    }
  }

  lemma {:induction false} SeenAt(s: Settings, i: nat) returns (p: nat)
    requires i < |FirstSeen(s)|
    ensures p < |s| && s[p].0 == FirstSeen(s)[i]
    decreases |s|
  {
    if i < |FirstSeen(s[..|s| - 1])| {
      p := SeenAt(s[..|s| - 1], i);
    } else {
      p := |s| - 1;
    }
  }

  lemma {:induction false} SettingIsSeen(s: Settings, q: nat)
    requires q < |s|
    ensures s[q].0 in FirstSeen(s)
    decreases |s|
  {
    if q < |s| - 1 {
      SettingIsSeen(s[..|s| - 1], q);
    }
  }

  // ----- exactly when a disk has one entry -----

  /** At most one entry names the row. */
  ghost predicate NamedOnce(fold: Fold, entries: seq<Entry>, d: Row) {
    forall a, b :: 0 <= a < b < |entries| ==> !(EntryNames(fold, entries[a], d) && EntryNames(fold, entries[b], d))
  }

  /** Set rows whose keys both name the row go by the same key. */
  ghost predicate OneKey(fold: Fold, rows: seq<Row>, specs: seq<string>, d: Row) {
    forall j: nat, k: nat :: SetRow(fold, rows, specs, j) && SetRow(fold, rows, specs, k) ==>
      Names(fold, KeyOf(rows[j]), d) && Names(fold, KeyOf(rows[k]), d) ==> KeyOf(rows[j]) == KeyOf(rows[k])
  }

  /** For every table and every --role: at most one entry names a row if and only
      if all set rows that answer to it go by one key. */
  lemma NamedOnceExactlyByOneKey(fold: Fold, rows: seq<Row>, specs: seq<string>, entries: seq<Entry>, i: nat)
    requires i < |rows| && Overrides(fold, rows, specs).Some? && Lists(entries, SettingsOf(fold, rows, specs))
    ensures NamedOnce(fold, entries, rows[i]) <==> OneKey(fold, rows, specs, rows[i])
  {
    hide Names, KeyOf, Overrides, Lists, SettingsOf;
    if OneKey(fold, rows, specs, rows[i]) {
      forall a, b | 0 <= a < b < |entries|
        ensures !(EntryNames(fold, entries[a], rows[i]) && EntryNames(fold, entries[b], rows[i]))
      {
        if EntryNames(fold, entries[a], rows[i]) && EntryNames(fold, entries[b], rows[i]) {
          EntriesOfOneKey(fold, rows, specs, entries, i, a, b);
        }
      }
    } else {
      var j: nat, k: nat :| SetRow(fold, rows, specs, j) && SetRow(fold, rows, specs, k) &&
        Names(fold, KeyOf(rows[j]), rows[i]) && Names(fold, KeyOf(rows[k]), rows[i]) &&
        KeyOf(rows[j]) != KeyOf(rows[k]);
      var a, b := TwoEntries(fold, rows, specs, entries, i, j, k);
      assert a < b || b < a;
    }
  }

  lemma EntriesOfOneKey(fold: Fold, rows: seq<Row>, specs: seq<string>, entries: seq<Entry>, i: nat, a: nat, b: nat)
    requires i < |rows| && Overrides(fold, rows, specs).Some? && Lists(entries, SettingsOf(fold, rows, specs))
    requires OneKey(fold, rows, specs, rows[i]) && a < |entries| && b < |entries|
    requires EntryNames(fold, entries[a], rows[i]) && EntryNames(fold, entries[b], rows[i])
    ensures a == b
  {
    FirstSeenIsExact(SettingsOf(fold, rows, specs));
    var j := EntryIsOfASetRow(fold, rows, specs, entries, a, i);
    var k := EntryIsOfASetRow(fold, rows, specs, entries, b, i);
    hide Names, SetRow, KeyOf, Overrides, SettingsOf;
  }

  lemma EntryIsOfASetRow(fold: Fold, rows: seq<Row>, specs: seq<string>, entries: seq<Entry>, a: nat, i: nat)
    returns (j: nat)
    requires i < |rows| && Overrides(fold, rows, specs).Some? && Lists(entries, SettingsOf(fold, rows, specs))
    requires a < |entries| && EntryNames(fold, entries[a], rows[i])
    ensures SetRow(fold, rows, specs, j) && FirstSeen(SettingsOf(fold, rows, specs))[a] == KeyOf(rows[j])
    ensures Names(fold, KeyOf(rows[j]), rows[i])
  {
    var s := SettingsOf(fold, rows, specs);
    assert Names(fold, FirstSeen(s)[a], rows[i]);
    var q := SeenAt(s, a);
    j := SettingIsOfASetRow(fold, rows, specs, q, i);
  }

  /** Two set rows that answer to one row under different keys give it two entries. */
  lemma TwoEntries(fold: Fold, rows: seq<Row>, specs: seq<string>, entries: seq<Entry>, i: nat, j: nat, k: nat)
    returns (a: nat, b: nat)
    requires i < |rows| && Overrides(fold, rows, specs).Some? && Lists(entries, SettingsOf(fold, rows, specs))
    requires SetRow(fold, rows, specs, j) && SetRow(fold, rows, specs, k) && KeyOf(rows[j]) != KeyOf(rows[k])
    requires Names(fold, KeyOf(rows[j]), rows[i]) && Names(fold, KeyOf(rows[k]), rows[i])
    ensures a < |entries| && b < |entries| && a != b
    ensures EntryNames(fold, entries[a], rows[i]) && EntryNames(fold, entries[b], rows[i])
  {
    a := EntryFor(fold, rows, specs, entries, j);
    b := EntryFor(fold, rows, specs, entries, k);
  }

  lemma EntryFor(fold: Fold, rows: seq<Row>, specs: seq<string>, entries: seq<Entry>, j: nat) returns (a: nat)
    requires Overrides(fold, rows, specs).Some? && Lists(entries, SettingsOf(fold, rows, specs))
    requires SetRow(fold, rows, specs, j)
    ensures a < |entries| && entries[a].serial == KeyOf(rows[j]).serial && entries[a].wwn == KeyOf(rows[j]).wwn
  {
    var s := SettingsOf(fold, rows, specs);
    hide SettingsOf, SetRow;
    var q := SetRowHasASetting(fold, rows, specs, j);
    SettingIsSeen(s, q);
    SetRowIsARow(fold, rows, specs, j);
    a :| 0 <= a < |FirstSeen(s)| && FirstSeen(s)[a] == KeyOf(rows[j]);
  }

  /** Two rows whose WWNs differ only in case are sent as two entries, and both
      name each disk. */
  lemma TwinRowsGetTwoEntries(fold: Fold, rows: seq<Row>, specs: seq<string>, entries: seq<Entry>, i: nat, j: nat)
    requires i < |rows| && j < |rows| && Sent(rows[i]) && Sent(rows[j])
    requires rows[i].wwn != "" && rows[i].wwn != rows[j].wwn && EqualFold(fold, rows[i].wwn, rows[j].wwn)
    requires Overrides(fold, rows, specs).Some? && Lists(entries, SettingsOf(fold, rows, specs))
    ensures !NamedOnce(fold, entries, rows[i]) && !NamedOnce(fold, entries, rows[j])
  {
    assert SetRow(fold, rows, specs, i) && SetRow(fold, rows, specs, j);
    assert Names(fold, KeyOf(rows[i]), rows[j]) && Names(fold, KeyOf(rows[j]), rows[i]);
    NamedOnceExactlyByOneKey(fold, rows, specs, entries, i);
    NamedOnceExactlyByOneKey(fold, rows, specs, entries, j);
  }

  /** Two rows that share a serial, only one of them with a WWN, are sent under
      different keys, and both name the disk that has the WWN. */
  lemma SharedSerialGetsTwoEntries(fold: Fold, rows: seq<Row>, specs: seq<string>, entries: seq<Entry>, i: nat, j: nat)
    requires i < |rows| && j < |rows| && Sent(rows[i]) && Sent(rows[j])
    requires rows[i].wwn != "" && rows[j].wwn == "" && rows[i].serial == rows[j].serial
    requires Overrides(fold, rows, specs).Some? && Lists(entries, SettingsOf(fold, rows, specs))
    ensures !NamedOnce(fold, entries, rows[i])
  {
    assert SetRow(fold, rows, specs, i) && SetRow(fold, rows, specs, j);
    assert Names(fold, KeyOf(rows[i]), rows[i]) && Names(fold, KeyOf(rows[j]), rows[i]);
    NamedOnceExactlyByOneKey(fold, rows, specs, entries, i);
  }
}
