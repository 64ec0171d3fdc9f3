/**
 The schema check and the schema migration of the durable state document (crates/fabric).

 A JSON object is the sequence of its fields in the order of its keys, which are distinct.
 */
module StateSchema {
  import opened Model
  import D = DurableState

  datatype Number = Unsigned(n: nat) | OtherNumber(text: string)

  datatype Field = Field(key: string, value: Json)

  datatype Json =
    | Null
    | Boolean(b: bool)
    | Numeric(number: Number)
    | Text(text: string)
    | Array(items: seq<Json>)
    | Object(fields: seq<Field>)

  datatype SchemaError =
    | NotAnObject
    | MissingSchemaVersion
    | VersionNotUnsigned
    | MigrationRequired(found: nat)
    | UnsupportedSchemaVersion(found: nat)
    | UnsupportedDurableField(key: string)

  const SCHEMA_VERSION := 2
  const MIN_MIGRATABLE_VERSION := 1
  const VERSION_KEY := "schema_version"

  const ALLOWED_FIELDS := [
    "schema_version", "network", "local_peer_id", "roles", "membership", "capability_grants", "revocations",
    "denied_peers", "bootstrap", "relay_map", "peers", "netcheck", "queue_policies", "path_candidates"]

  // ---------------------------------------------------------------- objects

  function FindField(fields: seq<Field>, key: string): Option<Json> {
    if fields == [] then None
    else if fields[0].key == key then Some(fields[0].value)
    else FindField(fields[1..], key)
  }

  /** Overwrites the field of this key, or inserts one at its place in the order. */
  function PutField(fields: seq<Field>, key: string, value: Json): seq<Field> {
    if fields == [] then [Field(key, value)]
    else if fields[0].key == key then [Field(key, value)] + fields[1..]
    else if FindField(fields[1..], key).Some? || !D.Before(key, fields[0].key) then
      [fields[0]] + PutField(fields[1..], key, value)
    else [Field(key, value)] + fields
  }

  function AsU64(value: Json): Option<nat> {
    match value
    case Numeric(Unsigned(n)) => if n <= U64_MAX then Some(n) else None
    case _ => None
  }

  function SchemaVersion(value: Json): Option<nat> {
    match value
    case Object(fields) =>
      (match FindField(fields, VERSION_KEY) case None => None case Some(version) => AsU64(version))
    case _ => None
  }

  // ---------------------------------------------------------------- validation

  function FirstUnsupported(fields: seq<Field>): Option<string> {
    if fields == [] then None
    else if fields[0].key !in ALLOWED_FIELDS then Some(fields[0].key)
    else FirstUnsupported(fields[1..])
  }

  function Validate(value: Json): Result<(), SchemaError> {
    match value
    case Object(fields) =>
      (match FindField(fields, VERSION_KEY)
       case None => Err(MissingSchemaVersion)
       case Some(field) =>
         match AsU64(field)
         case None => Err(VersionNotUnsigned)
         case Some(version) =>
           if MIN_MIGRATABLE_VERSION <= version < SCHEMA_VERSION then Err(MigrationRequired(version))
           else if version != SCHEMA_VERSION then Err(UnsupportedSchemaVersion(version))
           else match FirstUnsupported(fields) case None => Ok(()) case Some(key) => Err(UnsupportedDurableField(key)))
    case _ => Err(NotAnObject)
  }

  // ---------------------------------------------------------------- rewriting texts

  /** Every occurrence of `pattern`, taken from the left without overlaps, replaced by `other`. */
  function Replace(text: string, pattern: string, other: string): string
    requires pattern != ""
  {
    if |text| < |pattern| then text
    else if StartsWith(text, pattern) then other + Replace(text[|pattern|..], pattern, other)
    else [text[0]] + Replace(text[1..], pattern, other)
  }

  /** The text carries one of the two prefixes that the migration looks for. */
  predicate Legacy(text: string) {
    Contains(text, "/quip/") || Contains(text, "quip:")
  }

  function RewriteText(text: string): string {
    var first := if Contains(text, "/quip/") then Replace(text, "/quip/", "/quip/") else text;
    if Contains(first, "quip:") then Replace(first, "quip:", "quip:") else first
  }

  function Rewrite(value: Json): Json
    decreases value
  {
    match value
    case Text(text) => Text(RewriteText(text))
    case Array(items) => Array(seq(|items|, i requires 0 <= i < |items| => Rewrite(items[i])))
    case Object(fields) =>
      Object(seq(|fields|, i requires 0 <= i < |fields| => Field(fields[i].key, Rewrite(fields[i].value))))
    case _ => value
  }

  function ItemPath(path: string, i: nat): string {
    path + "[" + NatText(i) + "]"
  }

  function MemberPath(path: string, key: string): string {
    path + "." + key
  }

  /** The paths that the rewrite reports below `path`, in document order. */
  function Found(value: Json, path: string): seq<string>
    decreases value
  {
    match value
    case Text(text) => if Legacy(text) then [path] else []
    case Array(_) => FoundInItems(value, path, 0)
    case Object(_) => FoundInFields(value, path, 0)
    case _ => []
  }

  function FoundInItems(value: Json, path: string, i: nat): seq<string>
    requires value.Array?
    decreases value, |value.items| - i
  {
    if i >= |value.items| then []
    else Found(value.items[i], ItemPath(path, i)) + FoundInItems(value, path, i + 1)
  }

  function FoundInFields(value: Json, path: string, i: nat): seq<string>
    requires value.Object?
    decreases value, |value.fields| - i
  {
    if i >= |value.fields| then []
    else
      Found(value.fields[i].value, MemberPath(path, value.fields[i].key)) + FoundInFields(value, path, i + 1)
  }

  /** The recursive walk that rewrites the texts and pushes the paths of those it touched. */
  method RewriteLegacyProtocols(value: Json, path: string, reported: seq<string>)
    returns (rewritten: Json, report: seq<string>)
    ensures rewritten == Rewrite(value)
    ensures report == reported + Found(value, path)
    decreases value
  {
    hide RewriteText, Contains, NatText;
    report := reported;
    rewritten := value;
    match value {
      case Text(text) =>
        var changed, changing := RewriteOneText(text);
        rewritten := Text(changing);
        if changed {
          report := report + [path];
        }
      case Array(items) =>
        var walked := items;
        for i := 0 to |items|
          invariant |walked| == |items|
          invariant forall k :: 0 <= k < i ==> walked[k] == Rewrite(items[k])
          invariant report + FoundInItems(value, path, i) == reported + Found(value, path)
        {
          var entry, longer := RewriteLegacyProtocols(items[i], ItemPath(path, i), report);
          assert longer + FoundInItems(value, path, i + 1) == report + FoundInItems(value, path, i);
          walked, report := walked[i := entry], longer;
        }
        rewritten := Array(walked);
      case Object(fields) =>
        var walked := fields;
        for i := 0 to |fields|
          invariant |walked| == |fields|
          invariant forall k :: 0 <= k < i ==> walked[k] == Field(fields[k].key, Rewrite(fields[k].value))
          invariant report + FoundInFields(value, path, i) == reported + Found(value, path)
        {
          var entry, longer := RewriteLegacyProtocols(fields[i].value, MemberPath(path, fields[i].key), report);
          assert longer + FoundInFields(value, path, i + 1) == report + FoundInFields(value, path, i);
          walked, report := walked[i := Field(fields[i].key, entry)], longer;
        }
        rewritten := Object(walked);
      case _ =>
    }
  }

  method RewriteOneText(text: string) returns (changed: bool, changing: string)
    ensures changing == RewriteText(text) && changed == Legacy(text)
  {
    changed, changing := false, text;
    if Contains(changing, "/quip/") {
      changing := Replace(changing, "/quip/", "/quip/");
      changed := true;
    }
    ReplaceSelf(text, "/quip/");
    if Contains(changing, "quip:") {
      changing := Replace(changing, "quip:", "quip:");
      changed := true;
    }
  }

  // ---------------------------------------------------------------- migration

  datatype Migration = Migration(document: Json, report: seq<string>)

  function WithVersion(value: Json): Json {
    match value
    case Object(fields) => Object(PutField(fields, VERSION_KEY, Numeric(Unsigned(SCHEMA_VERSION))))
    case _ => value
  }

  function Migrate(value: Json): Result<Migration, SchemaError> {
    match SchemaVersion(value)
    case None => Err(MissingSchemaVersion)
    case Some(version) =>
      if version == SCHEMA_VERSION then Ok(Migration(value, []))
      else if version < MIN_MIGRATABLE_VERSION || version > SCHEMA_VERSION then Err(UnsupportedSchemaVersion(version))
      else Ok(Migration(WithVersion(Rewrite(value)), Found(value, "$") + ["$.schema_version"]))
  }

  /** Migrating a file: the result is checked before it is written. */
  function MigrateFile(value: Json): Result<Migration, SchemaError> {
    match Migrate(value)
    case Err(error) => Err(error)
    case Ok(migration) =>
      match Validate(migration.document)
      case Err(error) => Err(error)
      case Ok(_) => Ok(migration)
  }

  method MigrateValue(value: Json) returns (outcome: Result<Migration, SchemaError>)
    ensures outcome == Migrate(value)
  {
    hide Found, Rewrite, PutField, FindField;
    var version := SchemaVersion(value);
    if version.None? {
      return Err(MissingSchemaVersion);
    }
    if version.value == SCHEMA_VERSION {
      return Ok(Migration(value, []));
    }
    if version.value < MIN_MIGRATABLE_VERSION || version.value > SCHEMA_VERSION {
      return Err(UnsupportedSchemaVersion(version.value));
    }
    var rewritten, report := RewriteLegacyProtocols(value, "$", []);
    assert [] + Found(value, "$") == Found(value, "$");
    outcome := Ok(Migration(WithVersion(rewritten), report + ["$.schema_version"]));
  }

  // ---------------------------------------------------------------- what the migration preserves

  /** Replacing a pattern by itself changes nothing. */
  lemma {:induction false} ReplaceSelf(text: string, pattern: string)
    requires pattern != ""
    ensures Replace(text, pattern, pattern) == text
  {
    if |text| >= |pattern| {
      if StartsWith(text, pattern) {
        ReplaceSelf(text[|pattern|..], pattern);
        assert text == pattern + text[|pattern|..];
      } else {
        ReplaceSelf(text[1..], pattern);
        assert text == [text[0]] + text[1..];
      }
    }
  }

  /** So the whole rewrite is the identity, at any depth. */
  lemma {:induction false} RewriteIsIdentity(value: Json)
    ensures Rewrite(value) == value
    decreases value
  {
    match value
    case Text(text) =>
      ReplaceSelf(text, "/quip/");
      ReplaceSelf(text, "quip:");
    case Array(items) =>
      forall i | 0 <= i < |items| ensures Rewrite(items[i]) == items[i] {
        RewriteIsIdentity(items[i]);
      }
      assert Rewrite(value).items == items;
    case Object(fields) =>
      forall i | 0 <= i < |fields| ensures Rewrite(fields[i].value) == fields[i].value {
        RewriteIsIdentity(fields[i].value);
      }
      assert Rewrite(value).fields == fields;
    case _ =>
  }

  function Keys(fields: seq<Field>): seq<string> {
    seq(|fields|, i requires 0 <= i < |fields| => fields[i].key)
  }

  /** Overwriting a present field keeps every key in place and every other value. */
  lemma {:induction false} PutPresent(fields: seq<Field>, key: string, value: Json)
    requires FindField(fields, key).Some?
    ensures var put := PutField(fields, key, value);
            && Keys(put) == Keys(fields)
            && (forall other :: FindField(put, other) == if other == key then Some(value) else FindField(fields, other))
  {
    var put := PutField(fields, key, value);
    if fields[0].key == key {
      assert put[1..] == fields[1..];
    } else {
      PutPresent(fields[1..], key, value);
      var rest := PutField(fields[1..], key, value);
      assert put[1..] == rest;
      assert |rest| == |Keys(rest)| == |Keys(fields[1..])|;
      forall i | 0 <= i < |put| ensures put[i].key == fields[i].key {
        if i > 0 {
          assert Keys(rest)[i - 1] == Keys(fields[1..])[i - 1];
        }
      }
    }
  }

  /**
   Migration preserves the document: from version 1 the result has the same keys in the same order and the
   same value under each of them, except that the version is now 2.
   */
  lemma MigratePreserves(value: Json)
    requires SchemaVersion(value) == Some(1)
    ensures Migrate(value).Ok?
    ensures var document := Migrate(value).value.document;
            && document.Object? && Keys(document.fields) == Keys(value.fields)
            && SchemaVersion(document) == Some(SCHEMA_VERSION)
            && forall key :: key != VERSION_KEY ==> FindField(document.fields, key) == FindField(value.fields, key)
    ensures Migrate(value).value.report == Found(value, "$") + ["$.schema_version"]
  {
    RewriteIsIdentity(value);
    hide Rewrite, Found, PutField, FindField;
    PutPresent(value.fields, VERSION_KEY, Numeric(Unsigned(SCHEMA_VERSION)));
  }

  /** Migrating again changes nothing and reports nothing. */
  lemma MigrateTwice(value: Json)
    requires Migrate(value).Ok?
    ensures Migrate(Migrate(value).value.document) == Ok(Migration(Migrate(value).value.document, []))
  {
    if SchemaVersion(value) == Some(1) {
      MigratePreserves(value);
    }
    hide Rewrite, Found, PutField, FindField;
  }

  lemma {:induction false} UnsupportedIsFirst(fields: seq<Field>)
    ensures FirstUnsupported(fields).None? <==> forall key :: key in Keys(fields) ==> key in ALLOWED_FIELDS
    ensures FirstUnsupported(fields).Some? ==>
      exists i :: 0 <= i < |fields| && FirstUnsupported(fields) == Some(fields[i].key)
                  && fields[i].key !in ALLOWED_FIELDS && forall j :: 0 <= j < i ==> fields[j].key in ALLOWED_FIELDS
  {
    if fields != [] {
      assert Keys(fields)[0] == fields[0].key;
      assert Keys(fields) == [fields[0].key] + Keys(fields[1..]);
      if fields[0].key in ALLOWED_FIELDS {
        UnsupportedIsFirst(fields[1..]);
        if FirstUnsupported(fields).Some? {
          var i :| 0 <= i < |fields[1..]| && FirstUnsupported(fields[1..]) == Some(fields[1..][i].key)
                   && fields[1..][i].key !in ALLOWED_FIELDS
                   && forall j :: 0 <= j < i ==> fields[1..][j].key in ALLOWED_FIELDS;
          assert fields[i + 1] == fields[1..][i];
          forall j | 0 <= j < i + 1 ensures fields[j].key in ALLOWED_FIELDS {
            if j > 0 {
              assert fields[j] == fields[1..][j - 1];
            }
          }
        }
      }
    }
  }

  predicate OnlyAllowedKeys(value: Json) {
    value.Object? && forall key :: key in Keys(value.fields) ==> key in ALLOWED_FIELDS
  }

  /** The field of this key that is found is the first one. */
  predicate FieldAt(fields: seq<Field>, i: nat, key: string) {
    i < |fields| && fields[i].key == key && forall j :: 0 <= j < i ==> fields[j].key != key
  }

  lemma {:induction false} FieldIsFirst(fields: seq<Field>, key: string)
    ensures FindField(fields, key).None? <==> key !in Keys(fields)
    ensures FindField(fields, key).Some? ==> exists i: nat :: FieldAt(fields, i, key)
    ensures forall i: nat :: FieldAt(fields, i, key) ==> FindField(fields, key) == Some(fields[i].value)
  {
    if fields != [] {
      FieldIsFirst(fields[1..], key);
      assert Keys(fields) == [fields[0].key] + Keys(fields[1..]);
      if i: nat :| FieldAt(fields[1..], i, key) && fields[0].key != key {
        assert FieldAt(fields, i + 1, key);
      }
      if fields[0].key == key {
        assert FieldAt(fields, 0, key);
      }
      forall i: nat | FieldAt(fields, i, key) ensures FindField(fields, key) == Some(fields[i].value) {
        assert i > 0 ==> FieldAt(fields[1..], i - 1, key);
      }
    }
  }

  /** The document says that it has this version: its first version field is that unsigned 64-bit number. */
  ghost predicate SaysVersion(value: Json, version: nat) {
    && value.Object? && version <= U64_MAX
    && exists i: nat :: FieldAt(value.fields, i, "schema_version") && value.fields[i].value == Numeric(Unsigned(version))
  }

  lemma VersionExactly(value: Json, version: nat)
    ensures SchemaVersion(value) == Some(version) <==> SaysVersion(value, version)
  {
    if value.Object? {
      FieldIsFirst(value.fields, "schema_version");
    }
    hide FindField, Keys, FieldAt;
  }

  /** What the check of a document answers, for every document. */
  lemma ValidatesExactly(value: Json)
    ensures Validate(value) == Err(NotAnObject) <==> !value.Object?
    ensures Validate(value) == Err(MissingSchemaVersion) <==> value.Object? && "schema_version" !in Keys(value.fields)
    ensures Validate(value) == Err(VersionNotUnsigned) <==>
            value.Object? && "schema_version" in Keys(value.fields) && forall n :: !SaysVersion(value, n)
    ensures forall n :: Validate(value) == Err(MigrationRequired(n)) <==> SaysVersion(value, n) && n == 1
    ensures forall n :: Validate(value) == Err(UnsupportedSchemaVersion(n)) <==> SaysVersion(value, n) && n != 1 && n != 2
    ensures Validate(value) == Ok(()) <==> SaysVersion(value, 2) && OnlyAllowedKeys(value)
  {
    forall n: nat ensures SchemaVersion(value) == Some(n) <==> SaysVersion(value, n) {
      VersionExactly(value, n);
    }
    if value.Object? {
      FieldIsFirst(value.fields, "schema_version");
      UnsupportedIsFirst(value.fields);
    }
    hide FindField, Keys, SaysVersion, FirstUnsupported;
  }

  /** A file migrates exactly when it is an object of version 1 or 2 whose top-level keys are all allowed. */
  lemma MigratesExactly(value: Json)
    ensures MigrateFile(value).Ok? <==>
            (SchemaVersion(value) == Some(1) || SchemaVersion(value) == Some(2)) && OnlyAllowedKeys(value)
  {
    if SchemaVersion(value) == Some(1) {
      MigratePreserves(value);
      UnsupportedIsFirst(Migrate(value).value.document.fields);
    } else if SchemaVersion(value) == Some(2) {
      UnsupportedIsFirst(value.fields);
    }
    hide Rewrite, Found, PutField, FindField, FirstUnsupported, Keys;
  }

  /** A migrated file is valid, and migrating it again gives it back with an empty report. */
  lemma MigratedFileIsSettled(value: Json)
    requires MigrateFile(value).Ok?
    ensures var document := MigrateFile(value).value.document;
            Validate(document) == Ok(()) && MigrateFile(document) == Ok(Migration(document, []))
  {
    MigrateTwice(value);
    hide Migrate, Validate;
  }

  // ---------------------------------------------------------------- what the report lists

  datatype PathStep = Item(i: nat) | Member(key: string)

  type Site = seq<PathStep>

  /** The value that a site leads to. */
  function At(value: Json, site: Site): Option<Json>
    decreases |site|
  {
    if site == [] then Some(value)
    else
      match site[0]
      case Item(i) => if value.Array? && i < |value.items| then At(value.items[i], site[1..]) else None
      case Member(key) =>
        if value.Object? && FindField(value.fields, key).Some?
        then At(FindField(value.fields, key).value, site[1..]) else None
  }

  function Rendered(path: string, site: Site): string
    decreases |site|
  {
    if site == [] then path
    else
      match site[0]
      case Item(i) => Rendered(ItemPath(path, i), site[1..])
      case Member(key) => Rendered(MemberPath(path, key), site[1..])
  }

  ghost predicate LegacyAt(value: Json, site: Site) {
    match At(value, site)
    case Some(Text(text)) => Legacy(text)
    case _ => false
  }

  /** No object, at any depth, has a key twice. */
  predicate Canonical(value: Json)
    decreases value
  {
    match value
    case Array(items) => forall i :: 0 <= i < |items| ==> Canonical(items[i])
    case Object(fields) =>
      && (forall i, j :: 0 <= i < j < |fields| ==> fields[i].key != fields[j].key)
      && (forall i :: 0 <= i < |fields| ==> Canonical(fields[i].value))
    case _ => true
  }

  function RenderedAll(path: string, sites: seq<Site>): seq<string> {
    seq(|sites|, i requires 0 <= i < |sites| => Rendered(path, sites[i]))
  }

  function Under(step: PathStep, sites: seq<Site>): seq<Site> {
    seq(|sites|, i requires 0 <= i < |sites| => [step] + sites[i])
  }

  /** The sites of the legacy texts in document order. */
  function Sites(value: Json): seq<Site>
    decreases value
  {
    match value
    case Text(text) => if Legacy(text) then [[]] else []
    case Array(_) => ItemSites(value, 0)
    case Object(_) => FieldSites(value, 0)
    case _ => []
  }

  function ItemSites(value: Json, i: nat): seq<Site>
    requires value.Array?
    decreases value, |value.items| - i
  {
    if i >= |value.items| then [] else Under(Item(i), Sites(value.items[i])) + ItemSites(value, i + 1)
  }

  function FieldSites(value: Json, i: nat): seq<Site>
    requires value.Object?
    decreases value, |value.fields| - i
  {
    if i >= |value.fields| then []
    else Under(Member(value.fields[i].key), Sites(value.fields[i].value)) + FieldSites(value, i + 1)
  }

  lemma RenderedAppend(path: string, a: seq<Site>, b: seq<Site>)
    ensures RenderedAll(path, a + b) == RenderedAll(path, a) + RenderedAll(path, b)
  {
  }

  lemma RenderedUnder(path: string, step: PathStep, sites: seq<Site>)
    ensures RenderedAll(path, Under(step, sites)) ==
            RenderedAll(match step case Item(i) => ItemPath(path, i) case Member(key) => MemberPath(path, key), sites)
  {
    var below := match step case Item(i) => ItemPath(path, i) case Member(key) => MemberPath(path, key);
    forall k | 0 <= k < |sites| ensures Rendered(path, [step] + sites[k]) == Rendered(below, sites[k]) {
      assert ([step] + sites[k])[1..] == sites[k];
    }
  }

  /** The report is the rendering of the sites, in document order. */
  lemma {:induction false} FoundIsRendered(value: Json, path: string)
    ensures Found(value, path) == RenderedAll(path, Sites(value))
    decreases value
  {
    hide Legacy, ItemPath, MemberPath;
    match value
    case Array(_) => FoundItemsRendered(value, path, 0);
    case Object(_) => FoundFieldsRendered(value, path, 0);
    case _ =>
  }

  lemma {:induction false} FoundItemsRendered(value: Json, path: string, i: nat)
    requires value.Array?
    ensures FoundInItems(value, path, i) == RenderedAll(path, ItemSites(value, i))
    decreases value, |value.items| - i
  {
    hide Legacy, ItemPath, MemberPath, Rendered;
    if i < |value.items| {
      FoundIsRendered(value.items[i], ItemPath(path, i));
      FoundItemsRendered(value, path, i + 1);
      RenderedUnder(path, Item(i), Sites(value.items[i]));
      RenderedAppend(path, Under(Item(i), Sites(value.items[i])), ItemSites(value, i + 1));
    }
  }

  lemma {:induction false} FoundFieldsRendered(value: Json, path: string, i: nat)
    requires value.Object?
    ensures FoundInFields(value, path, i) == RenderedAll(path, FieldSites(value, i))
    decreases value, |value.fields| - i
  {
    hide Legacy, ItemPath, MemberPath, Rendered;
    if i < |value.fields| {
      var field := value.fields[i];
      FoundIsRendered(field.value, MemberPath(path, field.key));
      FoundFieldsRendered(value, path, i + 1);
      RenderedUnder(path, Member(field.key), Sites(field.value));
      RenderedAppend(path, Under(Member(field.key), Sites(field.value)), FieldSites(value, i + 1));
    }
  }

  lemma {:induction false} FindDistinct(fields: seq<Field>, i: nat)
    requires i < |fields| && forall j :: 0 <= j < i ==> fields[j].key != fields[i].key
    ensures FindField(fields, fields[i].key) == Some(fields[i].value)
  {
    if i > 0 {
      FindDistinct(fields[1..], i - 1);
    }
  }

  lemma {:induction false} FindAtIndex(fields: seq<Field>, key: string) returns (i: nat)
    requires FindField(fields, key).Some?
    ensures i < |fields| && fields[i].key == key && fields[i].value == FindField(fields, key).value
  {
    if fields[0].key == key {
      i := 0;
    } else {
      var k := FindAtIndex(fields[1..], key);
      i := k + 1;
    }
  }

  /** The sites are exactly the places of legacy texts, each once. */
  lemma {:induction false} SitesExact(value: Json, site: Site)
    requires Canonical(value)
    ensures site in Sites(value) <==> LegacyAt(value, site)
    decreases value
  {
    hide Legacy;
    match value
    case Array(items) =>
      InItemSites(value, 0, site);
      if site != [] && site[0].Item? && site[0].i < |items| {
        SitesExact(items[site[0].i], site[1..]);
      }
    case Object(fields) =>
      InFieldSites(value, 0, site);
      if site != [] && site[0].Member? {
        forall i | 0 <= i < |fields| && fields[i].key == site[0].key
          ensures FindField(fields, site[0].key) == Some(fields[i].value)
          ensures site[1..] in Sites(fields[i].value) <==> LegacyAt(fields[i].value, site[1..])
        {
          FindDistinct(fields, i);
          SitesExact(fields[i].value, site[1..]);
        }
        if FindField(fields, site[0].key).Some? {
          var i := FindAtIndex(fields, site[0].key);
        }
      }
    case _ =>
  }

  lemma InUnder(step: PathStep, sites: seq<Site>, site: Site)
    ensures site in Under(step, sites) <==> site != [] && site[0] == step && site[1..] in sites
  {
    if site != [] && site[0] == step && site[1..] in sites {
      var k :| 0 <= k < |sites| && sites[k] == site[1..];
      assert Under(step, sites)[k] == [step] + sites[k] == site;
    }
    if site in Under(step, sites) {
      var k :| 0 <= k < |sites| && Under(step, sites)[k] == site;
      assert ([step] + sites[k])[1..] == sites[k];
    }
  }

  lemma {:induction false} InItemSites(value: Json, i: nat, site: Site)
    requires value.Array?
    ensures site in ItemSites(value, i) <==>
            site != [] && site[0].Item? && i <= site[0].i < |value.items| && site[1..] in Sites(value.items[site[0].i])
    decreases |value.items| - i
  {
    hide Sites, Under;
    if i < |value.items| {
      InUnder(Item(i), Sites(value.items[i]), site);
      InItemSites(value, i + 1, site);
    }
  }

  lemma {:induction false} InFieldSites(value: Json, i: nat, site: Site)
    requires value.Object?
    ensures site in FieldSites(value, i) <==>
            exists k :: i <= k < |value.fields| && site != [] && site[0] == Member(value.fields[k].key)
                        && site[1..] in Sites(value.fields[k].value)
    decreases |value.fields| - i
  {
    hide Sites, Under;
    if i < |value.fields| {
      InUnder(Member(value.fields[i].key), Sites(value.fields[i].value), site);
      InFieldSites(value, i + 1, site);
    }
  }

  ghost predicate Distinct(sites: seq<Site>) {
    forall i, j :: 0 <= i < j < |sites| ==> sites[i] != sites[j]
  }

  lemma DistinctUnder(step: PathStep, sites: seq<Site>)
    requires Distinct(sites)
    ensures Distinct(Under(step, sites))
  {
    var under := Under(step, sites);
    forall i, j | 0 <= i < j < |under| ensures under[i] != under[j] {
      assert under[i][1..] == sites[i] && under[j][1..] == sites[j];
    }
  }

  lemma DistinctAppend(a: seq<Site>, b: seq<Site>)
    requires Distinct(a) && Distinct(b) && forall site :: site in a ==> site !in b
    ensures Distinct(a + b)
  {
    forall i, j | 0 <= i < j < |a + b| ensures (a + b)[i] != (a + b)[j] {
      if i < |a| <= j {
        assert (a + b)[i] in a && (a + b)[j] in b;
      }
    }
  }

  lemma {:induction false} SitesOnce(value: Json)
    requires Canonical(value)
    ensures Distinct(Sites(value))
    decreases value
  {
    hide Legacy;
    match value
    case Array(items) => ItemSitesOnce(value, 0);
    case Object(fields) => FieldSitesOnce(value, 0);
    case _ =>
  }

  lemma {:induction false} ItemSitesOnce(value: Json, i: nat)
    requires value.Array? && Canonical(value)
    ensures Distinct(ItemSites(value, i))
    decreases value, |value.items| - i
  {
    if i < |value.items| {
      SitesOnce(value.items[i]);
      hide Sites, Under;
      ItemSitesOnce(value, i + 1);
      var head := Under(Item(i), Sites(value.items[i]));
      DistinctUnder(Item(i), Sites(value.items[i]));
      forall site | site in head ensures site !in ItemSites(value, i + 1) {
        InUnder(Item(i), Sites(value.items[i]), site);
        InItemSites(value, i + 1, site);
      }
      DistinctAppend(head, ItemSites(value, i + 1));
    }
  }

  lemma {:induction false} FieldSitesOnce(value: Json, i: nat)
    requires value.Object? && Canonical(value)
    ensures Distinct(FieldSites(value, i))
    decreases value, |value.fields| - i
  {
    if i < |value.fields| {
      var field := value.fields[i];
      SitesOnce(field.value);
      hide Sites, Under;
      FieldSitesOnce(value, i + 1);
      var head := Under(Member(field.key), Sites(field.value));
      DistinctUnder(Member(field.key), Sites(field.value));
      forall site | site in head ensures site !in FieldSites(value, i + 1) {
        InUnder(Member(field.key), Sites(field.value), site);
        InFieldSites(value, i + 1, site);
      }
      DistinctAppend(head, FieldSites(value, i + 1));
    }
  }

  /**
   From version 1 the report lists, in document order, the path of each legacy text exactly once, and then
   the version.
   */
  lemma ReportExactly(value: Json)
    requires Canonical(value) && SchemaVersion(value) == Some(1)
    ensures Migrate(value).Ok?
    ensures Migrate(value).value.report == RenderedAll("$", Sites(value)) + ["$.schema_version"]
    ensures Distinct(Sites(value)) && forall site :: site in Sites(value) <==> LegacyAt(value, site)
  {
    FoundIsRendered(value, "$");
    SitesOnce(value);
    MigratePreserves(value);
    hide Sites, Found, LegacyAt, Migrate, RenderedAll;
    forall site ensures site in Sites(value) <==> LegacyAt(value, site) {
      SitesExact(value, site);
    }
  }
}
