/** The HTCondor submit file written from the bundle cache: a fixed header,
    then one `arguments` line and one `queue` per key of each process's
    entry. The file is modelled as the sequence of its `write` calls. */
module Condor {
  import opened Text
  import opened Json
  import Bundles

  /** The settings written before any job, one string per `write`. */
  function Header(): (h: seq<string>)
    ensures |h| == 16
  {
    [ "executable = run_job.sh\n",
      "universe   = vanilla\n",
      "+JobFlavour = \"nextweek\"\n",
      "stream_output = True\n",
      "stream_error  = True\n\n",
      "should_transfer_files = YES\n",
      "WhenToTransferOutput  = ON_EXIT\n",
      "notification = never\n",
      "getenv     = True\n\n",
      "Transfer_Input_Files = .\n",
      "request_cpus = 1\n",
      "request_memory = 8 GB\n",
      "request_disk = 50 GB\n\n",
      "output = logs/$(Cluster)_$(Process).out\n",
      "error  = logs/$(Cluster)_$(Process).err\n",
      "log    = logs/$(Cluster).log\n\n" ]
  }

  function Arguments(process: string, key: string): string {
    "arguments = " + process + " " + key + "\n"
  }

  const Queue := "queue\n\n"

  /** The writes for the keys of one process's entry, in key order. */
  function KeyBlocks(process: string, keys: seq<string>): seq<string> {
    if keys == [] then []
    else KeyBlocks(process, keys[..|keys| - 1]) + [Arguments(process, keys[|keys| - 1]), Queue]
  }

  /** The writes of the loop over the cache, and whether it stopped on an
      entry that is not an object (`parts.keys()` raises; what was written
      stays in the file). */
  function CacheWrites(cache: Dict<Json>): (seq<string>, bool)
  {
    if cache == [] then ([], false)
    else
      var (writes, failed) := CacheWrites(cache[..|cache| - 1]);
      var (process, parts) := cache[|cache| - 1];
      if failed then (writes, true)
      else if parts.JObj? then (writes + KeyBlocks(process, Keys(parts.fields)), false)
      else (writes, true)
  }

  function Writes(cache: Dict<Json>): seq<string> { CacheWrites(cache).0 }

  predicate Failed(cache: Dict<Json>) { CacheWrites(cache).1 }

  /** Every process's entry is an object. */
  predicate AllObjects(cache: Dict<Json>) {
    forall i :: 0 <= i < |cache| ==> cache[i].1.JObj?
  }

  /** The loop fails exactly when some entry is not an object. */
  lemma {:induction false} FailedIffNotObject(cache: Dict<Json>)
    ensures Failed(cache) <==> !AllObjects(cache)
  {
    if cache != [] {
      var init := cache[..|cache| - 1];
      FailedIffNotObject(init);
      assert forall i :: 0 <= i < |init| ==> init[i] == cache[i];
    }
  }

  // ---------------------------------------------------------------------
  // An independent reading: one block per (process, key) pair

  /** `[(process, key) for key in keys]` */
  function PairsOf(process: string, keys: seq<string>): (ps: seq<(string, string)>)
    ensures |ps| == |keys|
    ensures forall i :: 0 <= i < |keys| ==> ps[i] == (process, keys[i])
  {
    if keys == [] then [] else [(process, keys[0])] + PairsOf(process, keys[1..])
  }

  /** `[(p, k) for p, parts in cache.items() for k in parts.keys()]` */
  function Pairs(cache: Dict<Json>): seq<(string, string)>
    requires AllObjects(cache)
  {
    if cache == [] then []
    else PairsOf(cache[0].0, Keys(cache[0].1.fields)) + Pairs(cache[1..])
  }

  /** The number of keys over all entries. */
  function KeyTotal(cache: Dict<Json>): nat
    requires AllObjects(cache)
  {
    if cache == [] then 0 else |cache[0].1.fields| + KeyTotal(cache[1..])
  }

  /** The writes for a list of pairs: an `arguments` line, then `queue`. */
  function BlocksOf(pairs: seq<(string, string)>): seq<string> {
    if pairs == [] then [] else [Arguments(pairs[0].0, pairs[0].1), Queue] + BlocksOf(pairs[1..])
  }

  /** Write `2i` names the `i`-th pair, write `2i+1` queues it. */
  lemma {:induction false} BlocksOfAt(pairs: seq<(string, string)>)
    ensures |BlocksOf(pairs)| == 2 * |pairs|
    ensures forall i :: 0 <= i < |pairs| ==>
      BlocksOf(pairs)[2 * i] == Arguments(pairs[i].0, pairs[i].1) && BlocksOf(pairs)[2 * i + 1] == Queue
  {
    if pairs != [] {
      var rest := BlocksOf(pairs[1..]);
      BlocksOfAt(pairs[1..]);
      var w := BlocksOf(pairs);
      assert w == [Arguments(pairs[0].0, pairs[0].1), Queue] + rest;
      forall i | 1 <= i < |pairs|
        ensures w[2 * i] == Arguments(pairs[i].0, pairs[i].1) && w[2 * i + 1] == Queue
      {
        assert w[2 * i] == rest[2 * (i - 1)] && w[2 * i + 1] == rest[2 * (i - 1) + 1];
        assert pairs[i] == pairs[1..][i - 1];
      }
    }
  }

  lemma {:induction false} BlocksOfAppend(a: seq<(string, string)>, b: seq<(string, string)>)
    ensures BlocksOf(a + b) == BlocksOf(a) + BlocksOf(b)
  {
    if a == [] {
      assert a + b == b;
    } else {
      calc {
        BlocksOf(a + b);
        { assert (a + b)[0] == a[0] && (a + b)[1..] == a[1..] + b; }
        [Arguments(a[0].0, a[0].1), Queue] + BlocksOf(a[1..] + b);
        { BlocksOfAppend(a[1..], b); }
        [Arguments(a[0].0, a[0].1), Queue] + (BlocksOf(a[1..]) + BlocksOf(b));
      }
    }
  }

  lemma {:induction false} KeyBlocksArePairs(process: string, keys: seq<string>)
    ensures KeyBlocks(process, keys) == BlocksOf(PairsOf(process, keys))
  {
    if keys != [] {
      var init := keys[..|keys| - 1];
      var k := keys[|keys| - 1];
      KeyBlocksArePairs(process, init);
      var ps, pi := PairsOf(process, keys), PairsOf(process, init);
      assert ps == pi + [(process, k)] by {
        assert forall i :: 0 <= i < |init| ==> ps[i] == (process, init[i]) == pi[i];
      }
      BlocksOfAppend(pi, [(process, k)]);
      assert BlocksOf([(process, k)]) == [Arguments(process, k), Queue] by {
        assert [(process, k)][1..] == [];
      }
    }
  }

  lemma {:induction false} PairsAppend(a: Dict<Json>, b: Dict<Json>)
    requires AllObjects(a) && AllObjects(b)
    ensures AllObjects(a + b) && Pairs(a + b) == Pairs(a) + Pairs(b)
    ensures KeyTotal(a + b) == KeyTotal(a) + KeyTotal(b)
  {
    AllObjectsAppend(a, b);
    if a == [] {
      assert a + b == b;
    } else {
      var rest := a[1..];
      assert AllObjects(rest) by {
        forall i | 0 <= i < |rest| ensures rest[i] == a[i + 1] { }
      }
      assert (a + b)[0] == a[0] && (a + b)[1..] == rest + b;
      PairsAppend(rest, b);
      AppendAssoc(PairsOf(a[0].0, Keys(a[0].1.fields)), Pairs(rest), Pairs(b));
    }
  }

  lemma AllObjectsAppend(a: Dict<Json>, b: Dict<Json>)
    requires AllObjects(a) && AllObjects(b)
    ensures AllObjects(a + b)
  {
    forall i | 0 <= i < |a + b| ensures (a + b)[i].1.JObj? {
      if i < |a| {
        assert (a + b)[i] == a[i];
      } else {
        assert (a + b)[i] == b[i - |a|];
      }
    }
  }

  /** When every entry is an object, the loop completes and writes exactly
      one `arguments`/`queue` block per (process, key) pair, processes in
      cache order and keys in entry order; so it queues one job per key. */
  lemma {:induction false} WritesArePairBlocks(cache: Dict<Json>)
    requires AllObjects(cache)
    ensures !Failed(cache) && Writes(cache) == BlocksOf(Pairs(cache))
    ensures |Pairs(cache)| == KeyTotal(cache)
  {
    if cache != [] {
      var init := cache[..|cache| - 1];
      var (process, parts) := cache[|cache| - 1];
      assert AllObjects(init) by {
        assert forall i :: 0 <= i < |init| ==> init[i] == cache[i];
      }
      WritesArePairBlocks(init);
      assert AllObjects([(process, parts)]);
      PairsAppend(init, [(process, parts)]);
      assert init + [(process, parts)] == cache;
      assert Pairs([(process, parts)]) == PairsOf(process, Keys(parts.fields)) by {
        assert Pairs([(process, parts)][1..]) == [];
      }
      assert KeyTotal([(process, parts)]) == |parts.fields| by {
        assert KeyTotal([(process, parts)][1..]) == 0;
      }
      KeyBlocksArePairs(process, Keys(parts.fields));
      BlocksOfAppend(Pairs(init), PairsOf(process, Keys(parts.fields)));
    }
  }

  /** For a cache shaped as the bundle builder writes it, the loop iterates
      each entry's own keys, `metadata` and `files`, so it queues two jobs
      per process whose second argument is one of those two words and never
      a `part<k>` name. */
  lemma {:induction false} BundleCacheArguments(cache: Dict<Json>)
    requires forall i :: 0 <= i < |cache| ==> Bundles.BundleShaped(cache[i].1)
    ensures AllObjects(cache)
    ensures |Pairs(cache)| == 2 * |cache|
    ensures forall j :: 0 <= j < |cache| ==>
      Pairs(cache)[2 * j] == (cache[j].0, "metadata") && Pairs(cache)[2 * j + 1] == (cache[j].0, "files")
  {
    if cache != [] {
      var rest := cache[1..];
      assert forall i :: 0 <= i < |rest| ==> rest[i] == cache[i + 1];
      BundleCacheArguments(rest);
      var ks := Keys(cache[0].1.fields);
      assert ks == ["metadata", "files"];
      var p := PairsOf(cache[0].0, ks);
      assert p == [(cache[0].0, "metadata"), (cache[0].0, "files")];
      var all := p + Pairs(rest);
      assert Pairs(cache) == all;
      forall j | 1 <= j < |cache|
        ensures all[2 * j] == (cache[j].0, "metadata") && all[2 * j + 1] == (cache[j].0, "files")
      {
        assert all[2 * j] == Pairs(rest)[2 * (j - 1)];
        assert all[2 * j + 1] == Pairs(rest)[2 * (j - 1) + 1];
      }
    }
  }

  // ---------------------------------------------------------------------
  // The script

  /** `make_condor_submit.py` on the parsed bundle file `doc`: the writes
      made to the submit file, and whether the run raised. The header is
      written first; `cache.items()` then raises when the loaded value is not
      an object, and the loop raises on an entry that is not one. */
  method WriteSubmitFile(doc: Json) returns (writes: seq<string>, failed: bool)
    ensures var cache := Load(doc);
      writes == Header() + (if cache.JObj? then Writes(cache.fields) else [])
    ensures var cache := Load(doc);
      failed == (!cache.JObj? || Failed(cache.fields))
  {
    var cache := Load(doc);
    writes := Header();
    if !cache.JObj? {
      return writes, true;
    }
    var jobs;
    jobs, failed := WriteJobs(cache.fields);
    writes := writes + jobs;
  }

  /** The loop of lines 33-36 over the cache's processes; an entry that is
      not an object ends it. */
  method WriteJobs(cache: Dict<Json>) returns (writes: seq<string>, failed: bool)
    ensures writes == Writes(cache) && failed == Failed(cache)
  {
    writes := [];
    failed := false;
    var n := 0;
    while n < |cache| && !failed
      invariant 0 <= n <= |cache|
      invariant writes == Writes(cache[..n]) && failed == Failed(cache[..n])
    {
      var process := cache[n].0;
      var parts := cache[n].1;
      CacheWritesSnoc(cache, n);
      if parts.JObj? {
        var block := WriteKeyBlocks(process, Keys(parts.fields));
        writes := writes + block;
      } else {
        failed := true;
      }
      n := n + 1;
    }
    if failed {
      FailedSticks(cache, n);
    } else {
      assert cache[..n] == cache;
    }
  }

  /** The writes of the inner loop, lines 34-36, for one process. */
  method WriteKeyBlocks(process: string, keys: seq<string>) returns (writes: seq<string>)
    ensures writes == KeyBlocks(process, keys)
  {
    writes := [];
    var k := 0;
    while k < |keys|
      invariant 0 <= k <= |keys|
      invariant writes == KeyBlocks(process, keys[..k])
    {
      KeyBlocksSnoc(process, keys, k);
      writes := writes + [Arguments(process, keys[k])];
      writes := writes + [Queue];
      k := k + 1;
    }
    assert keys[..k] == keys;
  }

  lemma CacheWritesSnoc(cache: Dict<Json>, n: nat)
    requires n < |cache| && !Failed(cache[..n])
    ensures cache[n].1.JObj? ==> (!Failed(cache[..n + 1])
      && Writes(cache[..n + 1]) == Writes(cache[..n]) + KeyBlocks(cache[n].0, Keys(cache[n].1.fields)))
    ensures !cache[n].1.JObj? ==> Failed(cache[..n + 1]) && Writes(cache[..n + 1]) == Writes(cache[..n])
  {
    assert cache[..n + 1][..n] == cache[..n];
  }

  lemma KeyBlocksSnoc(process: string, keys: seq<string>, k: nat)
    requires k < |keys|
    ensures KeyBlocks(process, keys[..k + 1]) == KeyBlocks(process, keys[..k]) + [Arguments(process, keys[k]), Queue]
  {
    assert keys[..k + 1][..k] == keys[..k];
  }

  /** Once the loop has failed, later entries write nothing more. */
  lemma {:induction false} FailedSticks(cache: Dict<Json>, n: nat)
    requires n <= |cache| && Failed(cache[..n])
    ensures Failed(cache) && Writes(cache) == Writes(cache[..n])
  {
    if n < |cache| {
      assert cache[..|cache| - 1][..n] == cache[..n];
      FailedSticks(cache[..|cache| - 1], n);
    } else {
      assert cache[..n] == cache;
    }
  }
}
