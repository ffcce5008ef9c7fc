/**
 Object keys of immutable body generations: how a key is built from its tenant, its
 project and its generation, how the local adapter resolves it to a file, and how the S3
 adapter validates it.
 */
module Keys {
  import opened Wrappers

  predicate IsIdChar(c: char) {
    || 'a' <= c <= 'z'
    || 'A' <= c <= 'Z'
    || '0' <= c <= '9'
    || c == '-' || c == '_' || c == '.' || c == ':' || c == '@'
  }

  /** The length of a text in bytes of its UTF-8 encoding. */
  function Utf8Length(s: string): nat {
    if s == "" then 0
    else
      (if s[0] < '\U{80}' then 1 else if s[0] < '\U{800}' then 2 else if s[0] < '\U{10000}' then 3 else 4)
      + Utf8Length(s[1..])
  }

  lemma {:induction false} AsciiLength(s: string)
    requires forall i | 0 <= i < |s| :: s[i] < '\U{80}'
    ensures Utf8Length(s) == |s|
  {
    if s != "" {
      AsciiLength(s[1..]);
    }
  }

  /** The identifier rule that tenants and projects pass before they reach the catalog; it allows ASCII only. */
  predicate IsId(s: string) {
    0 < |s| <= 128 && forall i | 0 <= i < |s| :: IsIdChar(s[i])
  }

  type Id = s: string | IsId(s) witness "a"

  datatype Scope = Scope(tenant: Id, project: Id)

  /** One immutable body generation of a scope. */
  datatype Generation = Generation(scope: Scope, name: string)

  predicate SlashFree(s: string) {
    forall i | 0 <= i < |s| :: s[i] != '/'
  }

  predicate IsDot(s: string) {
    s == "." || s == ".."
  }

  /** A scope that the identifier rule accepts although no path can hold it. */
  predicate IsDotScope(scope: Scope) {
    IsDot(scope.tenant) || IsDot(scope.project)
  }

  function ObjectKey(g: Generation): string {
    "objects" + "/" + (g.scope.tenant + "/" + (g.scope.project + "/" + (g.name + ".blob")))
  }

  /** The key of `g` below an adapter prefix; the empty prefix gives the local key. */
  function PrefixedKey(prefix: string, g: Generation): string {
    if prefix == "" then ObjectKey(g) else prefix + "/" + ObjectKey(g)
  }

  // ----- Splitting a key at its slashes -----

  function Split(s: string): (parts: seq<string>)
    ensures 0 < |parts|
  {
    if s == "" then [""]
    else if s[0] == '/' then [""] + Split(s[1..])
    else
      var rest := Split(s[1..]);
      [[s[0]] + rest[0]] + rest[1..]
  }

  /** Cutting at a slash that was put between two texts gives back the pieces of both. */
  lemma {:induction false} SplitJoin(a: string, b: string)
    ensures Split(a + "/" + b) == Split(a) + Split(b)
  {
    if a == "" {
      assert a + "/" + b == ['/'] + b;
    } else {
      assert (a + "/" + b)[1..] == a[1..] + "/" + b;
      SplitJoin(a[1..], b);
    }
  }

  lemma {:induction false} SplitSlashFree(s: string)
    requires SlashFree(s)
    ensures Split(s) == [s]
  {
    if s != "" {
      SplitSlashFree(s[1..]);
      assert [s[0]] + s[1..] == s;
    }
  }

  lemma IdIsSlashFree(s: string)
    requires IsId(s)
    ensures SlashFree(s)
  {
    forall i | 0 <= i < |s| ensures s[i] != '/' {
      assert IsIdChar(s[i]);
    }
  }

  lemma SplitFour(a: string, b: string, c: string, d: string)
    requires SlashFree(a) && SlashFree(b) && SlashFree(c) && SlashFree(d)
    ensures Split(a + "/" + (b + "/" + (c + "/" + d))) == [a, b, c, d]
  {
    SplitJoin(a, b + "/" + (c + "/" + d));
    SplitJoin(b, c + "/" + d);
    SplitJoin(c, d);
    SplitSlashFree(a);
    SplitSlashFree(b);
    SplitSlashFree(c);
    SplitSlashFree(d);
  }

  lemma SplitObjectKey(g: Generation)
    requires SlashFree(g.name)
    ensures Split(ObjectKey(g)) == ["objects", g.scope.tenant, g.scope.project, g.name + ".blob"]
  {
    IdIsSlashFree(g.scope.tenant);
    IdIsSlashFree(g.scope.project);
    SplitFour("objects", g.scope.tenant, g.scope.project, g.name + ".blob");
  }

  // ----- Keys parse back -----

  /** Reads tenant, project and generation back from the last three pieces of a key. */
  function ParseKey(key: string): Option<(string, string, string)> {
    var parts := Split(key);
    var n := |parts|;
    if n < 4 || parts[n - 4] != "objects" || |parts[n - 1]| < 5 then None
    else Some((parts[n - 3], parts[n - 2], parts[n - 1][..|parts[n - 1]| - 5]))
  }

  lemma ParsePrefixedKey(prefix: string, g: Generation)
    requires SlashFree(g.name)
    ensures ParseKey(PrefixedKey(prefix, g)) == Some((g.scope.tenant, g.scope.project, g.name))
  {
    SplitObjectKey(g);
    if prefix != "" {
      SplitJoin(prefix, ObjectKey(g));
    }
    assert (g.name + ".blob")[..|g.name|] == g.name;
  }

  /** Keys of distinct generations differ, whatever adapter prefixes they are built with. */
  lemma KeysAreInjective(p: string, g: Generation, q: string, h: Generation)
    requires SlashFree(g.name) && SlashFree(h.name)
    requires PrefixedKey(p, g) == PrefixedKey(q, h)
    ensures g == h
  {
    ParsePrefixedKey(p, g);
    ParsePrefixedKey(q, h);
  }

  // ----- The local adapter: from a key to a file -----

  datatype Component = RootDir | CurDir | ParentDir | Normal(name: string)

  /** Empty pieces and inner `.` pieces name no component. */
  function Normalize(parts: seq<string>): seq<Component> {
    if parts == [] then []
    else if parts[0] == "" || parts[0] == "." then Normalize(parts[1..])
    else [if parts[0] == ".." then ParentDir else Normal(parts[0])] + Normalize(parts[1..])
  }

  function Components(path: string): seq<Component> {
    var parts := Split(path);
    var head := if path != "" && path[0] == '/' then [RootDir]
                else if parts[0] == "." then [CurDir] else [];
    head + Normalize(parts)
  }

  /** Resolves a key to the file it names below the root, or refuses it. */
  function ObjectPath(key: string): Option<string> {
    var c := Components(key);
    if || (exists i | 0 <= i < |key| :: key[i] == '\\')
       || |c| != 4
       || c[0] != Normal("objects")
       || !(c[1].Normal? && c[2].Normal? && c[3].Normal?)
    then None
    else Some(c[0].name + "/" + (c[1].name + "/" + (c[2].name + "/" + c[3].name)))
  }

  lemma IdIsClean(s: string)
    requires IsId(s)
    ensures forall i | 0 <= i < |s| :: s[i] != '\\' && s[i] >= ' ' && s[i] != '\U{7F}'
  {
    forall i | 0 <= i < |s| ensures s[i] != '\\' && s[i] >= ' ' && s[i] != '\U{7F}' {
      assert IsIdChar(s[i]);
    }
  }

  lemma NormalizeKeyParts(t: string, p: string, n: string)
    requires t != "" && p != "" && n != "" && !IsDot(n)
    ensures var c := Normalize(["objects", t, p, n]);
            if IsDot(t) || IsDot(p)
            then |c| != 4 || !c[1].Normal? || !c[2].Normal?
            else c == [Normal("objects"), Normal(t), Normal(p), Normal(n)]
  {
    var parts := ["objects", t, p, n];
    assert parts[1..] == [t, p, n];
    assert parts[1..][1..] == [p, n];
    assert parts[1..][1..][1..] == [n];
    assert parts[1..][1..][1..][1..] == [];
    assert Normalize([n]) == [Normal(n)];
    assert Normalize([p, n]) == if p == "." then [Normal(n)] else [if p == ".." then ParentDir else Normal(p), Normal(n)];
  }

  /**
   The local key of a minted generation names exactly its own file, except that a scope
   holding `.` or `..` as its tenant or project has no file at all.
   */
  lemma LocalKeyResolves(g: Generation)
    requires IsId(g.name)
    ensures ObjectPath(ObjectKey(g)) == if IsDotScope(g.scope) then None else Some(ObjectKey(g))
  {
    var t, p, n := g.scope.tenant, g.scope.project, g.name + ".blob";
    var key := ObjectKey(g);
    IdIsSlashFree(g.name);
    SplitObjectKey(g);
    NormalizeKeyParts(t, p, n);
    forall i | 0 <= i < |key| ensures key[i] != '\\' {
      IdIsClean(t);
      IdIsClean(p);
      IdIsClean(g.name);
    }
    assert Components(key) == Normalize(["objects", t, p, n]);
  }

  // ----- The S3 adapter: validated keys below a prefix -----

  const MAX_S3_KEY_BYTES := 1024

  predicate IsControl(c: char) {
    c < ' ' || '\U{7F}' <= c <= '\U{9F}'
  }

  predicate IsWhitespace(c: char) {
    || c == ' ' || '\t' <= c <= '\r' || c == '\U{85}' || c == '\U{A0}' || c == '\U{1680}'
    || '\U{2000}' <= c <= '\U{200A}' || c == '\U{2028}' || c == '\U{2029}' || c == '\U{202F}'
    || c == '\U{205F}' || c == '\U{3000}'
  }

  predicate ValidComponent(value: string, maxBytes: nat) {
    && value != ""
    && Utf8Length(value) <= maxBytes
    && !IsDot(value)
    && forall i | 0 <= i < |value| ::
         value[i] != '/' && value[i] != '\\' && !IsControl(value[i]) && !IsWhitespace(value[i])
  }

  predicate GoodPart(part: string) {
    part != "" && !IsDot(part)
  }

  predicate GoodParts(parts: seq<string>) {
    forall i | 0 <= i < |parts| :: GoodPart(parts[i])
  }

  predicate CleanText(key: string) {
    forall i | 0 <= i < |key| :: key[i] != '\\' && !IsControl(key[i])
  }

  predicate ValidKey(key: string) {
    && key != ""
    && Utf8Length(key) <= MAX_S3_KEY_BYTES
    && key[0] != '/'
    && key[|key| - 1] != '/'
    && GoodParts(Split(key))
    && CleanText(key)
  }

  function GenerationKey(prefix: string, g: Generation): Option<string> {
    var key := PrefixedKey(prefix, g);
    if ValidComponent(g.name, 256) && ValidKey(key) then Some(key) else None
  }

  lemma ObjectKeyIsClean(g: Generation)
    requires ValidComponent(g.name, 256)
    ensures CleanText(ObjectKey(g))
  {
    var key := ObjectKey(g);
    forall i | 0 <= i < |key| ensures key[i] != '\\' && !IsControl(key[i]) {
      IdIsClean(g.scope.tenant);
      IdIsClean(g.scope.project);
      forall j | 0 <= j < |g.scope.tenant| ensures !IsControl(g.scope.tenant[j]) {
        assert IsIdChar(g.scope.tenant[j]);
      }
      forall j | 0 <= j < |g.scope.project| ensures !IsControl(g.scope.project[j]) {
        assert IsIdChar(g.scope.project[j]);
      }
    }
  }

  /**
   Under a configured prefix the adapter issues a key exactly for safe generation names in
   scopes without `.` and `..`, as long as the key fits; the key stays below the prefix.
   */
  lemma GenerationKeyAccepts(prefix: string, g: Generation)
    requires prefix == "" || ValidKey(prefix)
    ensures GenerationKey(prefix, g).Some? <==>
            && ValidComponent(g.name, 256)
            && !IsDotScope(g.scope)
            && Utf8Length(PrefixedKey(prefix, g)) <= MAX_S3_KEY_BYTES
    ensures GenerationKey(prefix, g).Some? && prefix != "" ==>
              prefix + "/" <= GenerationKey(prefix, g).value
  {
    if ValidComponent(g.name, 256) {
      var key := PrefixedKey(prefix, g);
      var tail := ["objects", g.scope.tenant, g.scope.project, g.name + ".blob"];
      SplitObjectKey(g);
      ObjectKeyIsClean(g);
      assert GoodParts(tail) <==> !IsDotScope(g.scope) by {
        assert GoodPart(tail[0]) && GoodPart(tail[3]);
        assert GoodPart(tail[1]) <==> !IsDot(g.scope.tenant);
        assert GoodPart(tail[2]) <==> !IsDot(g.scope.project);
        if !IsDotScope(g.scope) {
          forall i | 0 <= i < |tail| ensures GoodPart(tail[i]) {
            if i == 1 {
            } else if i == 2 {
            }
          }
        }
      }
      assert key[|key| - 1] == 'b';
      if prefix != "" {
        SplitJoin(prefix, ObjectKey(g));
        GoodPartsJoin(Split(prefix), tail);
        assert key[0] == prefix[0];
        assert prefix + "/" <= key;
      }
    }
  }

  lemma GoodPartsJoin(a: seq<string>, b: seq<string>)
    ensures GoodParts(a + b) <==> GoodParts(a) && GoodParts(b)
  {
    if GoodParts(a + b) {
      forall i | 0 <= i < |a| ensures GoodPart(a[i]) {
        assert GoodPart((a + b)[i]);
      }
      forall i | 0 <= i < |b| ensures GoodPart(b[i]) {
        assert GoodPart((a + b)[|a| + i]);
      }
    }
  }
}
