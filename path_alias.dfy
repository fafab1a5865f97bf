/** The path alias resolver: rewriting a path's prefix between the alias a
    local mount uses and the path the remote library stores, using an
    ordered alias table (src/utils/index.ts). */
module PathAlias {
  import opened Wrappers
  import opened Strings

  /** The alias table as `Object.entries` lists it: pairs
      `(alias, resolvedPath)` in order. */
  type AliasTable = seq<(string, string)>

  /** `ToResolved` is `resolvePath` (match the alias, write the resolved
      path); `ToAlias` is `resolveAlias` (the reverse). */
  datatype Direction = ToResolved | ToAlias {
    function Flip(): Direction {
      if this == ToResolved then ToAlias else ToResolved
    }
  }

  /** The side of an entry that is tested with `startsWith`. */
  function Key(e: (string, string), d: Direction): string {
    if d == ToResolved then e.0 else e.1
  }

  /** The side of an entry that replaces the matched prefix. */
  function Target(e: (string, string), d: Direction): string {
    if d == ToResolved then e.1 else e.0
  }

  /** The loop over the entries from index `k` on, stopping at the first
      entry whose key is a prefix of `path`. */
  function FirstMatchFrom(table: AliasTable, path: string, d: Direction, k: nat): (r: Option<nat>)
    requires k <= |table|
    ensures r.Some? ==> k <= r.value < |table| && StartsWith(path, Key(table[r.value], d))
    ensures r.Some? ==> forall j :: k <= j < r.value ==> !StartsWith(path, Key(table[j], d))
    ensures r.None? ==> forall j :: k <= j < |table| ==> !StartsWith(path, Key(table[j], d))
    decreases |table| - k
  {
    if k == |table| then None
    else if StartsWith(path, Key(table[k], d)) then Some(k)
    else FirstMatchFrom(table, path, d, k + 1)
  }

  function FirstMatch(table: AliasTable, path: string, d: Direction): (r: Option<nat>)
    ensures r.Some? ==> r.value < |table| && StartsWith(path, Key(table[r.value], d))
    ensures r.Some? ==> forall j :: 0 <= j < r.value ==> !StartsWith(path, Key(table[j], d))
    ensures r.None? ==> forall j :: 0 <= j < |table| ==> !StartsWith(path, Key(table[j], d))
  {
    FirstMatchFrom(table, path, d, 0)
  }

  /** The shared body of `resolvePath` and `resolveAlias`: `replace` the key
      of the first matching entry by its target, or return `path`. */
  function Rewrite(table: AliasTable, path: string, d: Direction): string {
    match FirstMatch(table, path, d)
    case None => path
    case Some(i) => ReplaceFirst(path, Key(table[i], d), Target(table[i], d))
  }

  /** With no entry matching, `Rewrite` returns the path unchanged. */
  lemma RewriteNoMatch(table: AliasTable, path: string, d: Direction)
    requires forall i :: 0 <= i < |table| ==> !StartsWith(path, Key(table[i], d))
    ensures Rewrite(table, path, d) == path
  {
  }

  /** With entry `i` the first match (in table order, not the longest),
      `Rewrite` swaps its key for its target as a prefix. */
  lemma RewriteFirstMatch(table: AliasTable, path: string, d: Direction, i: nat)
    requires i < |table| && StartsWith(path, Key(table[i], d))
    requires forall j :: 0 <= j < i ==> !StartsWith(path, Key(table[j], d))
    ensures Rewrite(table, path, d) == Target(table[i], d) + path[|Key(table[i], d)|..]
  {
    var m := FirstMatch(table, path, d);
    assert m == Some(i);
    ReplaceAtPrefix(path, Key(table[i], d), Target(table[i], d));
  }

  /** Both cases of `Rewrite` at once, as the contracts below state them. */
  lemma RewriteSpec(table: AliasTable, path: string, d: Direction)
    ensures (forall i :: 0 <= i < |table| ==> !StartsWith(path, Key(table[i], d)))
      ==> Rewrite(table, path, d) == path
    ensures forall i ::
              (0 <= i < |table| && StartsWith(path, Key(table[i], d))
               && (forall j :: 0 <= j < i ==> !StartsWith(path, Key(table[j], d))))
              ==> Rewrite(table, path, d) == Target(table[i], d) + path[|Key(table[i], d)|..]
  {
    if forall i :: 0 <= i < |table| ==> !StartsWith(path, Key(table[i], d)) {
      RewriteNoMatch(table, path, d);
    }
    forall i | 0 <= i < |table| && StartsWith(path, Key(table[i], d))
      && (forall j :: 0 <= j < i ==> !StartsWith(path, Key(table[j], d)))
      ensures Rewrite(table, path, d) == Target(table[i], d) + path[|Key(table[i], d)|..]
    {
      RewriteFirstMatch(table, path, d, i);
    }
  }

  /** `resolvePath`: an aliased path to the resolved path. */
  function ResolvePath(table: AliasTable, path: string): string {
    Rewrite(table, path, ToResolved)
  }

  /** `resolveAlias`: the mirror of `resolvePath`, matching resolved paths
      and writing aliases. */
  function ResolveAlias(table: AliasTable, path: string): string {
    Rewrite(table, path, ToAlias)
  }

  /** `resolvePath` returns the path unchanged when no alias is a prefix of
      it, and otherwise swaps the first such alias, in table order, for its
      resolved path. */
  lemma ResolvePathSpec(table: AliasTable, path: string)
    ensures (forall i :: 0 <= i < |table| ==> !StartsWith(path, table[i].0)) ==> ResolvePath(table, path) == path
    ensures forall i ::
              (0 <= i < |table| && StartsWith(path, table[i].0)
               && (forall j :: 0 <= j < i ==> !StartsWith(path, table[j].0)))
              ==> ResolvePath(table, path) == table[i].1 + path[|table[i].0|..]
  {
    RewriteSpec(table, path, ToResolved);
  }

  /** `resolveAlias` returns the path unchanged when no resolved path is a
      prefix of it, and otherwise swaps the first such resolved path for its
      alias. */
  lemma ResolveAliasSpec(table: AliasTable, path: string)
    ensures (forall i :: 0 <= i < |table| ==> !StartsWith(path, table[i].1)) ==> ResolveAlias(table, path) == path
    ensures forall i ::
              (0 <= i < |table| && StartsWith(path, table[i].1)
               && (forall j :: 0 <= j < i ==> !StartsWith(path, table[j].1)))
              ==> ResolveAlias(table, path) == table[i].0 + path[|table[i].1|..]
  {
    RewriteSpec(table, path, ToAlias);
  }

  /** With the default empty table (`'{}'`) both directions are the identity. */
  lemma EmptyTableIdentity(path: string)
    ensures ResolvePath([], path) == path && ResolveAlias([], path) == path
  {
  }

  /** The first matching entry wins even when a later entry's alias is a
      longer prefix of the path. */
  lemma FirstMatchNotLongest()
    ensures ResolvePath([("/mnt", "/data"), ("/mnt/photos", "/photos")], "/mnt/photos/a.jpg")
      == "/data/photos/a.jpg"
  {
    var table := [("/mnt", "/data"), ("/mnt/photos", "/photos")];
    var path := "/mnt/photos/a.jpg";
    assert StartsWith(path, table[0].0);
    assert path[|table[0].0|..] == "/photos/a.jpg";
  }

  /** No key of one entry is a prefix of the key of another entry. */
  ghost predicate PrefixFree(table: AliasTable, d: Direction) {
    forall i, j :: 0 <= i < |table| && 0 <= j < |table| && i != j
      ==> !StartsWith(Key(table[j], d), Key(table[i], d))
  }

  /** Rewriting one way and then back restores the path, when some entry
      matched and the keys of the way back are prefix-free. */
  lemma RewriteRoundTrip(table: AliasTable, path: string, d: Direction)
    requires exists i :: 0 <= i < |table| && StartsWith(path, Key(table[i], d))
    requires PrefixFree(table, d.Flip())
    ensures Rewrite(table, Rewrite(table, path, d), d.Flip()) == path
  {
    var k := FirstMatchIndex(table, path, d);
    var key := Key(table[k], d);
    var rest := path[|key|..];
    RewriteFirstMatch(table, path, d, k);
    RewriteBack(table, k, d, rest);
    assert path == key + rest;
  }

  /** Rewriting back a path that starts with entry `k`'s target: with
      prefix-free targets, entry `k` is the first match and its key
      comes back. */
  lemma RewriteBack(table: AliasTable, k: nat, d: Direction, rest: string)
    requires k < |table|
    requires PrefixFree(table, d.Flip())
    ensures Rewrite(table, Target(table[k], d) + rest, d.Flip()) == Key(table[k], d) + rest
  {
    var e := d.Flip();
    var target := Target(table[k], d);
    var q := target + rest;
    FlipSides(table[k], d);
    assert q[..|target|] == target;
    OnlyMatchBack(table, q, e, k);
    RewriteFirstMatch(table, q, e, k);
    assert q[|target|..] == rest;
  }

  /** The index of the first match, when some entry matches. */
  lemma FirstMatchIndex(table: AliasTable, path: string, d: Direction) returns (k: nat)
    requires exists i :: 0 <= i < |table| && StartsWith(path, Key(table[i], d))
    ensures k < |table| && StartsWith(path, Key(table[k], d))
    ensures forall j :: 0 <= j < k ==> !StartsWith(path, Key(table[j], d))
  {
    var i :| 0 <= i < |table| && StartsWith(path, Key(table[i], d));
    var m := FirstMatch(table, path, d);
    k := m.value;
  }

  /** Flipping the direction swaps an entry's key and target. */
  lemma FlipSides(entry: (string, string), d: Direction)
    ensures Key(entry, d.Flip()) == Target(entry, d)
    ensures Target(entry, d.Flip()) == Key(entry, d)
  {
  }

  /** With prefix-free keys, a path that starts with one key starts with
      no other. */
  lemma OnlyMatchBack(table: AliasTable, q: string, e: Direction, k: nat)
    requires k < |table| && StartsWith(q, Key(table[k], e))
    requires PrefixFree(table, e)
    ensures forall j :: 0 <= j < k ==> !StartsWith(q, Key(table[j], e))
  {
    forall j | 0 <= j < k
      ensures !StartsWith(q, Key(table[j], e))
    {
      PrefixesComparable(q, Key(table[j], e), Key(table[k], e));
    }
  }

  /** Two prefixes of the same path: the shorter is a prefix of the longer. */
  lemma PrefixesComparable(q: string, a: string, b: string)
    requires StartsWith(q, b)
    ensures StartsWith(q, a) ==> StartsWith(a, b) || StartsWith(b, a)
  {
    if StartsWith(q, a) {
      if |a| <= |b| {
        assert b[..|a|] == q[..|a|];
      } else {
        assert a[..|b|] == q[..|b|];
      }
    }
  }

  /** `resolvePath(resolveAlias(path)) == path` for a path under a resolved
      prefix, when no alias is a prefix of another. */
  lemma AliasThenResolve(table: AliasTable, path: string)
    requires exists i :: 0 <= i < |table| && StartsWith(path, table[i].1)
    requires PrefixFree(table, ToResolved)
    ensures ResolvePath(table, ResolveAlias(table, path)) == path
  {
    var i :| 0 <= i < |table| && StartsWith(path, table[i].1);
    assert StartsWith(path, Key(table[i], ToAlias));
    RewriteRoundTrip(table, path, ToAlias);
  }

  /** `resolveAlias(resolvePath(path)) == path` for a path under an alias,
      when no resolved path is a prefix of another. */
  lemma ResolveThenAlias(table: AliasTable, path: string)
    requires exists i :: 0 <= i < |table| && StartsWith(path, table[i].0)
    requires PrefixFree(table, ToAlias)
    ensures ResolveAlias(table, ResolvePath(table, path)) == path
  {
    var i :| 0 <= i < |table| && StartsWith(path, table[i].0);
    assert StartsWith(path, Key(table[i], ToResolved));
    RewriteRoundTrip(table, path, ToResolved);
  }

  /** The single-entry round trip `{a: r}`. */
  lemma SingleEntryRoundTrip(a: string, r: string, path: string)
    requires StartsWith(path, r)
    ensures ResolvePath([(a, r)], ResolveAlias([(a, r)], path)) == path
  {
    assert StartsWith(path, [(a, r)][0].1);
    AliasThenResolve([(a, r)], path);
  }

  /** Without prefix-freedom the round trip can fail: the way back stops at
      an earlier, shorter alias. */
  lemma RoundTripNeedsPrefixFree()
    ensures ResolvePath([("/a", "/x"), ("/ab", "/y")], ResolveAlias([("/a", "/x"), ("/ab", "/y")], "/y/f"))
      == "/xb/f"
  {
    var table := [("/a", "/x"), ("/ab", "/y")];
    assert "/y/f"[1] != "/x"[1];
    assert !StartsWith("/y/f", table[0].1);
    assert StartsWith("/y/f", table[1].1);
    assert ResolveAlias(table, "/y/f") == "/ab" + "/f";
    assert StartsWith("/ab/f", table[0].0);
    assert "/ab/f"[2..] == "b/f";
  }

  /** The module-level `pathAliases`: loaded from the configuration on the
      first call of either function and reused afterwards. */
  class AliasCache {
    var loaded: Option<AliasTable>

    constructor ()
      ensures loaded == None
    {
      loaded := None;
    }

    /** The table in use: the cached one, or `configured` on the first call. */
    method Table(configured: AliasTable) returns (t: AliasTable)
      modifies this
      ensures old(loaded).Some? ==> loaded == old(loaded)
      ensures old(loaded).None? ==> loaded == Some(configured)
      ensures loaded == Some(t)
    {
      if loaded.None? {
        loaded := Some(configured);
      }
      t := loaded.value;
    }

    method ResolvePathCached(path: string, configured: AliasTable) returns (r: string)
      modifies this
      ensures old(loaded).Some? ==> loaded == old(loaded)
      ensures old(loaded).None? ==> loaded == Some(configured)
      ensures loaded.Some? && r == ResolvePath(loaded.value, path)
    {
      var t := Table(configured);
      r := ResolvePath(t, path);
    }

    method ResolveAliasCached(path: string, configured: AliasTable) returns (r: string)
      modifies this
      ensures old(loaded).Some? ==> loaded == old(loaded)
      ensures old(loaded).None? ==> loaded == Some(configured)
      ensures loaded.Some? && r == ResolveAlias(loaded.value, path)
    {
      var t := Table(configured);
      r := ResolveAlias(t, path);
    }
  }
}
