/**
 Choosing free file names: `_dedupe_gallery_filename` and its caller in
 backend/app/repositories/thumbnail_jobs.py, and the loop of
 backend/app/services/gallery_archive_import.py. How a name splits into stem and
 suffix is a parameter.
 */
module Filenames {
  import opened Common
  import opened Text

  type Memo = map<(string, string), nat>

  function Numbered(base: string, ext: string, k: nat): string { base + "_" + Decimal(k) + ext }

  lemma {:induction false} NumberedInjective(base: string, ext: string, j: nat, k: nat)
    requires Numbered(base, ext, j) == Numbered(base, ext, k)
    ensures j == k
  {
    hide Decimal;
    var a, b := Numbered(base, ext, j), Numbered(base, ext, k);
    var n := |base| + 1;
    assert a[n..|a| - |ext|] == Decimal(j) && b[n..|b| - |ext|] == Decimal(k);
    DecimalInjective(j, k);
  }

  /** The numbered names from `lo` up to `hi` are used. */
  ghost predicate AllUsed(base: string, ext: string, used: set<string>, lo: nat, hi: nat) {
    forall k :: lo <= k < hi ==> Numbered(base, ext, k) in used
  }

  /** Only as many numbered names can be used as there are used names. */
  lemma {:induction false} UsedRunIsShort(base: string, ext: string, used: set<string>, lo: nat, hi: nat)
    requires lo <= hi && AllUsed(base, ext, used, lo, hi)
    ensures hi - lo <= |used|
    decreases hi - lo
  {
    if lo < hi {
      var last := Numbered(base, ext, hi - 1);
      assert last in used;
      var rest := used - {last};
      assert AllUsed(base, ext, rest, lo, hi - 1) by {
        forall k | lo <= k < hi - 1
          ensures Numbered(base, ext, k) in rest
        {
          if Numbered(base, ext, k) == last { NumberedInjective(base, ext, k, hi - 1); }
        }
      }
      UsedRunIsShort(base, ext, rest, lo, hi - 1);
    }
  }

  /** What a search from 1 chooses: the name itself, or its smallest free number. */
  ghost predicate IsChoice(split: string -> (string, string), filename: string, used: set<string>, chosen: string) {
    if filename !in used then chosen == filename
    else
      var (base, ext) := split(filename);
      chosen !in used &&
      exists k: nat :: k >= 1 && chosen == Numbered(base, ext, k) && chosen == base + "_" + Decimal(k) + ext
                       && AllUsed(base, ext, used, 1, k)
  }

  /** The choice is unique. */
  lemma {:induction false} ChoiceUnique(
    split: string -> (string, string), filename: string, used: set<string>, a: string, b: string)
    requires IsChoice(split, filename, used, a) && IsChoice(split, filename, used, b)
    ensures a == b
  {
    if filename in used {
      var (base, ext) := split(filename);
      var j: nat :| j >= 1 && a == Numbered(base, ext, j) && AllUsed(base, ext, used, 1, j);
      var k: nat :| k >= 1 && b == Numbered(base, ext, k) && AllUsed(base, ext, used, 1, k);
      assert j < k ==> Numbered(base, ext, j) in used;
      assert k < j ==> Numbered(base, ext, k) in used;
    }
  }

  /** Every number below the memo is used already. */
  ghost predicate MemoOk(memo: Memo, used: set<string>) {
    forall key :: key in memo ==> memo[key] >= 1 && AllUsed(key.0, key.1, used, 1, memo[key])
  }

  lemma {:induction false} MemoGrows(memo: Memo, used: set<string>, more: set<string>)
    requires MemoOk(memo, used) && used <= more
    ensures MemoOk(memo, more)
  {
    forall key | key in memo
      ensures AllUsed(key.0, key.1, more, 1, memo[key])
    {
      assert AllUsed(key.0, key.1, used, 1, memo[key]);
    }
  }

  lemma {:induction false} MemoSet(memo: Memo, used: set<string>, key: (string, string), k: nat)
    requires MemoOk(memo, used) && k >= 1 && AllUsed(key.0, key.1, used, 1, k)
    ensures MemoOk(memo[key := k], used)
  {}

  /** `_dedupe_gallery_filename`: with or without a memo, the choice of the search from 1. */
  method DedupeFilename(split: string -> (string, string), filename: string, used: set<string>, memo: Option<Memo>)
    returns (chosen: string, next: Option<Memo>)
    requires memo.Some? ==> MemoOk(memo.value, used)
    ensures IsChoice(split, filename, used, chosen) && chosen !in used
    ensures next.Some? == memo.Some? && (next.Some? ==> MemoOk(next.value, used + {chosen}))
  {
    next := memo;
    if filename !in used {
      chosen := filename;
      if memo.Some? { MemoGrows(memo.value, used, used + {chosen}); }
      return;
    }
    var (base, ext) := split(filename);
    var key := (base, ext);
    var counter := if memo.Some? && key in memo.value then memo.value[key] else 1;
    while true
      invariant counter >= 1 && AllUsed(base, ext, used, 1, counter)
      decreases |used| + 1 - counter
    {
      chosen := Numbered(base, ext, counter);
      if chosen !in used {
        if memo.Some? {
          MemoGrows(memo.value, used, used + {chosen});
          MemoSet(memo.value, used + {chosen}, key, counter + 1);
          next := Some(memo.value[key := counter + 1]);
        }
        return;
      }
      UsedRunIsShort(base, ext, used, 1, counter + 1);
      counter := counter + 1;
    }
  }

  /** The loop of the archive import, which keeps the memo while it searches. */
  method DedupeImported(split: string -> (string, string), original: string, used: set<string>, memo: Memo)
    returns (filename: string, next: Memo)
    requires MemoOk(memo, used)
    ensures IsChoice(split, original, used, filename) && filename !in used
    ensures MemoOk(next, used + {filename})
  {
    filename, next := original, memo;
    var (base, ext) := split(original);
    var key := (base, ext);
    ghost var tried := 0;
    while filename in used
      invariant tried == 0 ==> filename == original && next == memo
      invariant tried > 0 ==>
          && original in used && filename == Numbered(base, ext, tried) && AllUsed(base, ext, used, 1, tried)
          && next == memo[key := tried + 1]
      decreases |used| + 1 - tried
    {
      if tried > 0 { UsedRunIsShort(base, ext, used, 1, tried + 1); }
      var counter := if key in next then next[key] else 1;
      assert AllUsed(base, ext, used, 1, counter);
      filename := Numbered(base, ext, counter);
      next := next[key := counter + 1];
      tried := counter;
    }
    MemoGrows(memo, used, used + {filename});
    if tried > 0 {
      MemoSet(memo, used + {filename}, key, tried + 1);
    }
  }

  // ---- a whole import ---------------------------------------------------------

  /** Each name is chosen as by the search from 1 against everything used before it. */
  ghost predicate AreChoices(split: string -> (string, string), names: seq<string>, used: set<string>,
      chosen: seq<string>)
  {
    |chosen| == |names| &&
    forall i :: 0 <= i < |names| ==> IsChoice(split, names[i], used + Elements(chosen[..i]), chosen[i])
  }

  /** The chosen names are pairwise distinct and none was used before. */
  lemma {:induction false} ChoicesAreFree(
    split: string -> (string, string), names: seq<string>, used: set<string>, chosen: seq<string>)
    requires AreChoices(split, names, used, chosen)
    ensures forall i :: 0 <= i < |chosen| ==> chosen[i] !in used
    ensures forall i, j :: 0 <= i < j < |chosen| ==> chosen[i] != chosen[j]
  {
    forall j | 0 <= j < |chosen|
      ensures chosen[j] !in used + Elements(chosen[..j])
    {
      assert IsChoice(split, names[j], used + Elements(chosen[..j]), chosen[j]);
    }
    forall i, j | 0 <= i < j < |chosen|
      ensures chosen[i] != chosen[j]
    {
      assert chosen[i] in chosen[..j];
    }
  }

  /** The file names of `_dedupe_import_entries_on_conn`. */
  method DedupeEntries(split: string -> (string, string), names: seq<string>, used: set<string>)
    returns (chosen: seq<string>)
    ensures AreChoices(split, names, used, chosen)
  {
    hide IsChoice, MemoOk;
    chosen := [];
    var taken := used;
    var memo: Memo := map[];
    NoMemo(used);
    assert used + Elements<string>([]) == used;
    for i := 0 to |names|
      invariant |chosen| == i && taken == used + Elements(chosen) && MemoOk(memo, taken)
      invariant forall k :: 0 <= k < i ==> IsChoice(split, names[k], used + Elements(chosen[..k]), chosen[k])
    {
      var name, next := DedupeFilename(split, names[i], taken, Some(memo));
      memo := next.value;
      ChosenNext(split, names, used, chosen, name);
      taken := taken + {name};
      chosen := chosen + [name];
    }
  }

  /** The file names of an archive import. */
  method DedupeArchive(split: string -> (string, string), names: seq<string>, used: set<string>)
    returns (chosen: seq<string>)
    ensures AreChoices(split, names, used, chosen)
  {
    hide IsChoice, MemoOk;
    chosen := [];
    var taken := used;
    var memo: Memo := map[];
    NoMemo(used);
    assert used + Elements<string>([]) == used;
    for i := 0 to |names|
      invariant |chosen| == i && taken == used + Elements(chosen) && MemoOk(memo, taken)
      invariant forall k :: 0 <= k < i ==> IsChoice(split, names[k], used + Elements(chosen[..k]), chosen[k])
    {
      var name;
      name, memo := DedupeImported(split, names[i], taken, memo);
      ChosenNext(split, names, used, chosen, name);
      taken := taken + {name};
      chosen := chosen + [name];
    }
  }

  lemma {:induction false} NoMemo(used: set<string>)
    ensures MemoOk(map[], used)
  {}

  lemma {:induction false} ChosenNext(
    split: string -> (string, string), names: seq<string>, used: set<string>, chosen: seq<string>, name: string)
    requires |chosen| < |names| && IsChoice(split, names[|chosen|], used + Elements(chosen), name)
    ensures
      var more := chosen + [name];
      && used + Elements(chosen) + {name} == used + Elements(more)
      && IsChoice(split, names[|chosen|], used + Elements(more[..|chosen|]), more[|chosen|])
      && forall k :: 0 <= k < |chosen| ==> more[..k] == chosen[..k] && more[k] == chosen[k]
  {
    hide IsChoice;
    var more := chosen + [name];
    assert more[..|chosen|] == chosen;
    assert Elements(more) == Elements(chosen) + {name};
  }
}
