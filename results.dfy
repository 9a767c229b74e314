/** Result materialisation (py/bizyair_webapp.py:445-491): the fallback query
    for missing outputs, then one download per output entry, named
    `<request id>_<app id>_<index><ext>` and decoded by extension. Whether the
    download and decoding of entry `k` succeed is the parameter `fetchOk(k)`;
    a failure there is caught and the entry is skipped. */
module Results {
  import opened Json
  import opened Text

  datatype Kind = Image | Audio | Video

  /** One result that was downloaded and decoded: the index of its output
      entry, how it was decoded, and the file name it was saved under. */
  datatype Saved = Saved(index: nat, kind: Kind, fileName: string)

  /** What the loop over the outputs did: the results it produced, the URLs it
      downloaded, and whether an exception escaped it. */
  datatype Plan = Plan(saved: seq<Saved>, downloads: seq<string>, crashed: bool)

  const ImageExtensions: seq<string> := [".png", ".jpg", ".jpeg", ".webp", ".bmp", ".tiff"]
  const AudioExtensions: seq<string> := [".mp3", ".wav", ".flac", ".aac", ".ogg", ".m4a"]

  /** The outputs after the fallback query of the outputs endpoint (:452-453),
      made only when the outputs are empty; `reply` is the decoded body of a
      200 reply, `None` for any other status or a transport exception. The
      outputs change only for a body whose `code` is 20000 and whose `data`
      (default `{}`) is a dict; every other exception is swallowed. */
  function FallbackOutputs(reply: Option<Value>, current: Value): (r: Value)
    ensures reply.None? ==> r == current
    ensures (reply.Some? && reply.value.Obj? && NumEquals(Get(reply.value, "code"), 20000) &&
             GetOr(reply.value, "data", Obj([])).Obj?) ==>
      r == GetOr(GetOr(reply.value, "data", Obj([])), "outputs", List([]))
    ensures reply.Some? && !(reply.value.Obj? && NumEquals(Get(reply.value, "code"), 20000)) ==> r == current
  {
    match reply
    case None => current
    case Some(d) =>
      if !d.Obj? || !NumEquals(Get(d, "code"), 20000) then current
      else
        var data := GetOr(d, "data", Obj([]));
        if data.Obj? then GetOr(data, "outputs", List([])) else current
  }

  /** The file extension used for a result URL: the URL's extension lower-cased,
      or ".png" when it has none. */
  function Extension(url: string): (ext: string)
    ensures ext != [] && ext[0] == '.'
    ensures forall i :: 0 <= i < |ext| ==> !('A' <= ext[i] <= 'Z')
    ensures Free(ext, '/') && Free(ext[1..], '.')
    ensures SplitExt(url).1 == [] ==> ext == ".png"
    ensures SplitExt(url).1 != [] ==>
      |ext| == |SplitExt(url).1| && forall i :: 0 <= i < |ext| ==> ext[i] == LowerChar(SplitExt(url).1[i])
  {
    var e := Lower(SplitExt(url).1);
    if e == [] then ".png" else e
  }

  /** How a result with extension `ext` is decoded. */
  function KindOf(ext: string): (k: Kind)
    ensures k == Image <==> ext in ImageExtensions
    ensures k == Audio <==> ext in AudioExtensions
  {
    if ext in ImageExtensions then Image
    else if ext in AudioExtensions then Audio
    else Video
  }

  /** The saved file's name: `<request id>_<app id>_<index><ext>`. */
  function FileName(requestId: Value, webAppId: Value, idx: nat, ext: string): string {
    Render(requestId) + "_" + Render(webAppId) + "_" + NatToString(idx) + ext
  }

  /** Two results of one task get different file names whenever their indices
      differ, whatever their extensions: the index digits end where the
      extension's dot begins. */
  lemma FileNamesDistinct(requestId: Value, webAppId: Value, m: nat, n: nat, e1: string, e2: string)
    requires e1 != [] && e1[0] == '.' && e2 != [] && e2[0] == '.'
    requires FileName(requestId, webAppId, m, e1) == FileName(requestId, webAppId, n, e2)
    ensures m == n && e1 == e2
  {
    IndexedNamesDistinct(Render(requestId) + "_" + Render(webAppId) + "_", m, n, e1, e2);
  }

  /** The same for any common prefix `p`. */
  lemma IndexedNamesDistinct(p: string, m: nat, n: nat, e1: string, e2: string)
    requires e1 != [] && e1[0] == '.' && e2 != [] && e2[0] == '.'
    requires p + NatToString(m) + e1 == p + NatToString(n) + e2
    ensures m == n && e1 == e2
  {
    var d1, d2 := NatToString(m), NatToString(n);
    assert p + d1 + e1 == p + (d1 + e1);
    assert p + d2 + e2 == p + (d2 + e2);
    PrefixCancel(p, d1 + e1, d2 + e2);
    DigitsEndAtDot(d1, e1, d2, e2);
    NatToStringInjective(m, n);
  }

  /** Equal texts with a common prefix have equal remainders. */
  lemma PrefixCancel(p: string, a: string, b: string)
    requires p + a == p + b
    ensures a == b
  {
    assert a == (p + a)[|p|..];
    assert b == (p + b)[|p|..];
  }

  /** A run of digits followed by a text starting with a dot splits only one
      way. */
  lemma DigitsEndAtDot(d1: string, e1: string, d2: string, e2: string)
    requires forall i :: 0 <= i < |d1| ==> IsDigit(d1[i])
    requires forall i :: 0 <= i < |d2| ==> IsDigit(d2[i])
    requires e1 != [] && e1[0] == '.' && e2 != [] && e2[0] == '.'
    requires d1 + e1 == d2 + e2
    ensures d1 == d2 && e1 == e2
  {
    LeadingDigitsBeforeDot(d1, e1);
    LeadingDigitsBeforeDot(d2, e2);
    assert d1 == (d1 + e1)[..|d1|];
    assert d2 == (d2 + e2)[..|d2|];
  }

  /** Entry `v` has a string `object_url` that is not empty. */
  predicate HasUrl(v: Value) {
    v.Obj? && Get(v, "object_url").Str? && Truthy(Get(v, "object_url"))
  }

  /** An entry the loop can read: a dict whose `object_url` is a string or falsy. */
  predicate Readable(v: Value) {
    v.Obj? && (Get(v, "object_url").Str? || !Truthy(Get(v, "object_url")))
  }

  /** What one output entry leads to: an exception (the entry is not a dict,
      or its `object_url` is truthy but not a string), nothing (no truthy
      `object_url`), or a download that may yield a result. */
  datatype Entry = Malformed | Skipped | Fetched(url: string, saved: seq<Saved>)

  function HandleEntry(v: Value, idx: nat, requestId: Value, webAppId: Value, fetchOk: nat -> bool): (e: Entry)
    ensures e.Malformed? <==> !Readable(v)
    ensures e.Fetched? <==> HasUrl(v)
    ensures e.Fetched? ==> e.url == Get(v, "object_url").s && (e.saved == [] <==> !fetchOk(idx))
    ensures e.Fetched? && fetchOk(idx) ==>
      var ext := Extension(e.url);
      e.saved == [Saved(idx, KindOf(ext), FileName(requestId, webAppId, idx, ext))]
  {
    if !v.Obj? then Malformed
    else
      var url := Get(v, "object_url");
      if !Truthy(url) then Skipped
      else if !url.Str? then Malformed
      else
        var ext := Extension(url.s);
        Fetched(url.s, if fetchOk(idx) then [Saved(idx, KindOf(ext), FileName(requestId, webAppId, idx, ext))] else [])
  }

  /** The results an entry contributes. */
  function EntrySaved(e: Entry): seq<Saved> {
    if e.Fetched? then e.saved else []
  }

  /** The downloads an entry makes. */
  function EntryDownloads(e: Entry): seq<string> {
    if e.Fetched? then [e.url] else []
  }

  /** The loop over the handled entries, in order; an exception stops it. */
  function PlanOf(es: seq<Entry>): Plan {
    if es == [] then Plan([], [], false)
    else if es[0].Malformed? then Plan([], [], true)
    else
      var rest := PlanOf(es[1..]);
      Plan(EntrySaved(es[0]) + rest.saved, EntryDownloads(es[0]) + rest.downloads, rest.crashed)
  }

  /** Every output entry handled with its own index. */
  function Entries(items: seq<Value>, requestId: Value, webAppId: Value, fetchOk: nat -> bool): (es: seq<Entry>)
    ensures |es| == |items|
    ensures forall k :: 0 <= k < |items| ==> es[k] == HandleEntry(items[k], k, requestId, webAppId, fetchOk)
  {
    seq(|items|, k requires 0 <= k < |items| => HandleEntry(items[k], k, requestId, webAppId, fetchOk))
  }

  /** The loop over `outputs`; iterating something Python cannot iterate raises. */
  function PlanOutputs(outputs: Value, requestId: Value, webAppId: Value, fetchOk: nat -> bool): Plan {
    match Iterate(outputs)
    case None => Plan([], [], true)
    case Some(items) => PlanOf(Entries(items, requestId, webAppId, fetchOk))
  }

  /** Entry `k` yields at most one result, and that result carries index `base + k`. */
  predicate Indexed(es: seq<Entry>, base: nat) {
    forall k :: 0 <= k < |es| ==>
      |EntrySaved(es[k])| <= 1 && forall s :: s in EntrySaved(es[k]) ==> s.index == base + k
  }

  lemma EntriesIndexed(items: seq<Value>, requestId: Value, webAppId: Value, fetchOk: nat -> bool)
    ensures Indexed(Entries(items, requestId, webAppId, fetchOk), 0)
  {
    var es := Entries(items, requestId, webAppId, fetchOk);
    forall k | 0 <= k < |es|
      ensures |EntrySaved(es[k])| <= 1 && forall s :: s in EntrySaved(es[k]) ==> s.index == k
    {
      EntryIndex(items[k], k, requestId, webAppId, fetchOk);
    }
  }

  /** An entry yields at most one result, carrying its own index. */
  lemma EntryIndex(v: Value, idx: nat, requestId: Value, webAppId: Value, fetchOk: nat -> bool)
    ensures var h := EntrySaved(HandleEntry(v, idx, requestId, webAppId, fetchOk));
      |h| <= 1 && forall s :: s in h ==> s.index == idx
  {
  }

  /** The later entries are indexed from one further on. */
  lemma IndexedTail(es: seq<Entry>, base: nat)
    requires es != [] && Indexed(es, base)
    ensures Indexed(es[1..], base + 1)
  {
    forall k | 0 <= k < |es| - 1
      ensures |EntrySaved(es[1..][k])| <= 1 && forall s :: s in EntrySaved(es[1..][k]) ==> s.index == base + 1 + k
    {
      assert es[1..][k] == es[k + 1];
    }
  }

  /** At most one download per entry, and no more results than downloads. */
  lemma {:induction false} PlanOfBounds(es: seq<Entry>, base: nat)
    requires Indexed(es, base)
    ensures |PlanOf(es).saved| <= |PlanOf(es).downloads| <= |es|
    decreases |es|
  {
    if es != [] && !es[0].Malformed? {
      IndexedTail(es, base);
      PlanOfBounds(es[1..], base + 1);
      assert |EntrySaved(es[0])| <= |EntryDownloads(es[0])|;
    }
  }

  /** `s` is the result entry `s.index - base` of `es` yielded. */
  predicate FromEntry(es: seq<Entry>, base: nat, s: Saved) {
    base <= s.index < base + |es| && EntrySaved(es[s.index - base]) == [s]
  }

  /** The results' entry indices strictly increase. */
  predicate Increasing(saved: seq<Saved>) {
    forall i, j :: 0 <= i < j < |saved| ==> saved[i].index < saved[j].index
  }

  lemma FromEntryTail(es: seq<Entry>, base: nat, s: Saved)
    requires es != [] && FromEntry(es[1..], base + 1, s)
    ensures FromEntry(es, base, s)
  {
    assert es[s.index - base] == es[1..][s.index - (base + 1)];
  }

  /** Each result is one its entry yielded. */
  lemma {:induction false} PlanOfSourced(es: seq<Entry>, base: nat)
    requires Indexed(es, base)
    ensures forall j :: 0 <= j < |PlanOf(es).saved| ==> FromEntry(es, base, PlanOf(es).saved[j])
    decreases |es|
  {
    if es != [] && !es[0].Malformed? {
      IndexedTail(es, base);
      PlanOfSourced(es[1..], base + 1);
      var rest := PlanOf(es[1..]);
      var head := EntrySaved(es[0]);
      var p := PlanOf(es);
      assert p.saved == head + rest.saved;
      forall j | 0 <= j < |p.saved|
        ensures FromEntry(es, base, p.saved[j])
      {
        if j < |head| {
          assert p.saved[j] == head[0] && head[0] in head;
          assert head == [head[0]];
        } else {
          assert p.saved[j] == rest.saved[j - |head|];
          assert FromEntry(es[1..], base + 1, rest.saved[j - |head|]);
          FromEntryTail(es, base, p.saved[j]);
        }
      }
    }
  }

  /** The results come in entry order, each entry at most once, and each is
      one its entry yielded. */
  lemma {:induction false} PlanOfOrdered(es: seq<Entry>, base: nat)
    requires Indexed(es, base)
    ensures forall j :: 0 <= j < |PlanOf(es).saved| ==> FromEntry(es, base, PlanOf(es).saved[j])
    ensures Increasing(PlanOf(es).saved)
    decreases |es|
  {
    PlanOfSourced(es, base);
    if es != [] && !es[0].Malformed? {
      IndexedTail(es, base);
      PlanOfOrdered(es[1..], base + 1);
      var rest := PlanOf(es[1..]);
      var head := EntrySaved(es[0]);
      var p := PlanOf(es);
      assert p.saved == head + rest.saved;
      forall i, j | 0 <= i < j < |p.saved|
        ensures p.saved[i].index < p.saved[j].index
      {
        assert p.saved[j] == rest.saved[j - |head|];
        assert FromEntry(es[1..], base + 1, rest.saved[j - |head|]);
        if i < |head| {
          assert p.saved[i] == head[i] && head[i] in head;
        } else {
          assert p.saved[i] == rest.saved[i - |head|];
        }
      }
    }
  }

  /** When no entry raises, the loop finishes, and entry `k` has a result
      exactly when it yields one. */
  lemma {:induction false} PlanOfComplete(es: seq<Entry>, base: nat)
    requires Indexed(es, base)
    requires forall k :: 0 <= k < |es| ==> !es[k].Malformed?
    ensures var p := PlanOf(es);
      && !p.crashed
      && forall k :: 0 <= k < |es| ==>
        (EntrySaved(es[k]) != [] <==> exists j :: 0 <= j < |p.saved| && p.saved[j].index == base + k)
    decreases |es|
  {
    PlanOfOrdered(es, base);
    if es != [] {
      IndexedTail(es, base);
      PlanOfComplete(es[1..], base + 1);
      var rest := PlanOf(es[1..]);
      var head := EntrySaved(es[0]);
      var p := PlanOf(es);
      assert p.saved == head + rest.saved;
      forall k | 0 <= k < |es|
        ensures EntrySaved(es[k]) != [] <==> exists j :: 0 <= j < |p.saved| && p.saved[j].index == base + k
      {
        if k == 0 {
          if head != [] {
            assert p.saved[0] == head[0] && head[0] in head;
          }
        } else {
          assert es[k] == es[1..][k - 1];
          if EntrySaved(es[k]) != [] {
            var j :| 0 <= j < |rest.saved| && rest.saved[j].index == base + 1 + (k - 1);
            assert p.saved[|head| + j] == rest.saved[j];
          }
        }
      }
    }
  }

  /** Every result comes from an output entry with a URL whose download
      succeeded; it is decoded and named after that URL's extension; the
      results come in entry order; and at most one download is made per
      entry. */
  lemma ResultsSound(items: seq<Value>, requestId: Value, webAppId: Value, fetchOk: nat -> bool)
    ensures var p := PlanOf(Entries(items, requestId, webAppId, fetchOk));
      && |p.saved| <= |p.downloads| <= |items|
      && (forall i, j :: 0 <= i < j < |p.saved| ==> p.saved[i].index < p.saved[j].index)
      && forall j :: 0 <= j < |p.saved| ==>
        var s := p.saved[j];
        && s.index < |items| && HasUrl(items[s.index]) && fetchOk(s.index)
        && var ext := Extension(Get(items[s.index], "object_url").s);
        && s.kind == KindOf(ext) && s.fileName == FileName(requestId, webAppId, s.index, ext)
  {
    var es := Entries(items, requestId, webAppId, fetchOk);
    EntriesIndexed(items, requestId, webAppId, fetchOk);
    PlanOfBounds(es, 0);
    PlanOfOrdered(es, 0);
    var p := PlanOf(es);
    forall j | 0 <= j < |p.saved|
      ensures var s := p.saved[j];
        && s.index < |items| && HasUrl(items[s.index]) && fetchOk(s.index)
        && var ext := Extension(Get(items[s.index], "object_url").s);
        && s.kind == KindOf(ext) && s.fileName == FileName(requestId, webAppId, s.index, ext)
    {
      var s := p.saved[j];
      assert EntrySaved(es[s.index]) == [s];
      assert es[s.index] == HandleEntry(items[s.index], s.index, requestId, webAppId, fetchOk);
    }
  }

  /** No two results share a file name. */
  predicate DistinctNames(rs: seq<Saved>) {
    forall i, j :: 0 <= i < j < |rs| ==> rs[i].fileName != rs[j].fileName
  }

  /** All results of one task have distinct file names. */
  lemma SavedNamesDistinct(items: seq<Value>, requestId: Value, webAppId: Value, fetchOk: nat -> bool)
    ensures DistinctNames(PlanOf(Entries(items, requestId, webAppId, fetchOk)).saved)
  {
    ResultsSound(items, requestId, webAppId, fetchOk);
    var p := PlanOf(Entries(items, requestId, webAppId, fetchOk));
    forall i, j | 0 <= i < j < |p.saved|
      ensures p.saved[i].fileName != p.saved[j].fileName
    {
      var si, sj := p.saved[i], p.saved[j];
      var ei := Extension(Get(items[si.index], "object_url").s);
      var ej := Extension(Get(items[sj.index], "object_url").s);
      if si.fileName == sj.fileName {
        FileNamesDistinct(requestId, webAppId, si.index, sj.index, ei, ej);
      }
    }
  }

  /** The results of a loop over `outputs` that nothing escaped have distinct
      file names. */
  lemma OutputNamesDistinct(outputs: Value, requestId: Value, webAppId: Value, fetchOk: nat -> bool)
    ensures DistinctNames(PlanOutputs(outputs, requestId, webAppId, fetchOk).saved)
  {
    match Iterate(outputs)
    case None =>
    case Some(items) =>
      SavedNamesDistinct(items, requestId, webAppId, fetchOk);
  }

  /** When every entry can be read, nothing escapes the loop, and entry `k`
      yields a result exactly when it has a URL and its download succeeded. */
  lemma ResultsComplete(items: seq<Value>, requestId: Value, webAppId: Value, fetchOk: nat -> bool)
    requires forall k :: 0 <= k < |items| ==> Readable(items[k])
    ensures var p := PlanOf(Entries(items, requestId, webAppId, fetchOk));
      && !p.crashed
      && forall k :: 0 <= k < |items| ==>
        (HasUrl(items[k]) && fetchOk(k) <==> exists j :: 0 <= j < |p.saved| && p.saved[j].index == k)
  {
    var es := Entries(items, requestId, webAppId, fetchOk);
    EntriesIndexed(items, requestId, webAppId, fetchOk);
    PlanOfComplete(es, 0);
    forall k | 0 <= k < |items|
      ensures HasUrl(items[k]) && fetchOk(k) <==> EntrySaved(es[k]) != []
    {
      assert es[k] == HandleEntry(items[k], k, requestId, webAppId, fetchOk);
    }
  }

  /** The loop from entry `idx` on: an entry that raises stops it, any other
      contributes its downloads and results ahead of the rest. */
  lemma PlanOfFrom(es: seq<Entry>, idx: nat)
    requires idx < |es|
    ensures es[idx].Malformed? ==> PlanOf(es[idx..]) == Plan([], [], true)
    ensures !es[idx].Malformed? ==>
      PlanOf(es[idx..]) == Plan(EntrySaved(es[idx]) + PlanOf(es[idx + 1..]).saved,
                                EntryDownloads(es[idx]) + PlanOf(es[idx + 1..]).downloads,
                                PlanOf(es[idx + 1..]).crashed)
  {
    assert es[idx..][0] == es[idx] && es[idx..][1..] == es[idx + 1..];
  }

  lemma Associative<T>(a: seq<T>, b: seq<T>, c: seq<T>)
    ensures (a + b) + c == a + (b + c)
  {
  }

  /** One pass of the download loop's body (:462-489) on entry `output` at
      index `idx`: whether it raised, the URL it downloaded, the result it
      produced. */
  method DownloadOne(output: Value, idx: nat, requestId: Value, webAppId: Value, fetchOk: nat -> bool)
    returns (raised: bool, downloaded: seq<string>, produced: seq<Saved>)
    ensures var e := HandleEntry(output, idx, requestId, webAppId, fetchOk);
      raised == e.Malformed? && downloaded == EntryDownloads(e) && produced == EntrySaved(e)
  {
    downloaded, produced := [], [];
    if !output.Obj? {
      return true, downloaded, produced;
    }
    var fileUrl := Get(output, "object_url");
    if !Truthy(fileUrl) {
      return false, downloaded, produced;
    }
    if !fileUrl.Str? {
      return true, downloaded, produced;
    }
    var ext := Extension(fileUrl.s);
    var fileName := FileName(requestId, webAppId, idx, ext);
    downloaded := [fileUrl.s];
    if fetchOk(idx) {
      produced := [Saved(idx, KindOf(ext), fileName)];
    }
    raised := false;
  }

  /** The download loop (:461-489) over the entries: each entry in turn; an
      exception from an entry ends the loop and escapes. */
  method DownloadEntries(items: seq<Value>, requestId: Value, webAppId: Value, fetchOk: nat -> bool) returns (p: Plan)
    ensures p == PlanOf(Entries(items, requestId, webAppId, fetchOk))
  {
    ghost var es := Entries(items, requestId, webAppId, fetchOk);
    var saved: seq<Saved> := [];
    var downloads: seq<string> := [];
    var idx := 0;
    assert es[idx..] == es;
    while idx < |items|
      invariant 0 <= idx <= |items|
      invariant PlanOf(es) == Plan(saved + PlanOf(es[idx..]).saved, downloads + PlanOf(es[idx..]).downloads, PlanOf(es[idx..]).crashed)
    {
      PlanOfFrom(es, idx);
      var raised, downloaded, produced := DownloadOne(items[idx], idx, requestId, webAppId, fetchOk);
      assert es[idx] == HandleEntry(items[idx], idx, requestId, webAppId, fetchOk);
      if raised {
        assert saved + [] == saved && downloads + [] == downloads;
        return Plan(saved, downloads, true);
      }
      ghost var rest := PlanOf(es[idx + 1..]);
      Associative(saved, produced, rest.saved);
      Associative(downloads, downloaded, rest.downloads);
      downloads := downloads + downloaded;
      saved := saved + produced;
      idx := idx + 1;
    }
    assert es[idx..] == [];
    assert saved + [] == saved && downloads + [] == downloads;
    p := Plan(saved, downloads, false);
  }

  /** `for idx, output in enumerate(outputs)`: outputs Python cannot iterate
      raise before any entry is handled. */
  method DownloadResults(outputs: Value, requestId: Value, webAppId: Value, fetchOk: nat -> bool) returns (p: Plan)
    ensures p == PlanOutputs(outputs, requestId, webAppId, fetchOk)
  {
    var iterated := Iterate(outputs);
    if iterated.None? {
      return Plan([], [], true);
    }
    p := DownloadEntries(iterated.value, requestId, webAppId, fetchOk);
  }
}
