/** How the node shapes its inputs before a task is created: the hidden JSON
    widget split into input values and the `_port_map`, the default-app list
    read from the bundled config, and the upload of connected image batches
    whose URLs are written into the input values. */
module Inputs {
  import opened Text
  import opened Json
  import opened Oss

  // ---------------------------------------------------------------------------
  // Dict assignment and removal on ordered entries
  // ---------------------------------------------------------------------------

  /** `d[key] = v`: an existing key keeps its position and takes the new
      value, a new key is appended. */
  function Assign(es: seq<(string, Value)>, key: string, v: Value): (r: seq<(string, Value)>)
    ensures Lookup(r, key) == Some(v)
    ensures forall k :: k != key ==> Lookup(r, k) == Lookup(es, k)
  {
    if es == [] then [(key, v)]
    else if es[0].0 == key then [(key, v)] + es[1..]
    else
      var rest := Assign(es[1..], key, v);
      assert forall k :: k != key && k != es[0].0 ==> Lookup([es[0]] + rest, k) == Lookup(rest, k);
      [es[0]] + rest
  }

  /** The entries without those stored under `key` (`d.pop(key)` on a dict). */
  function Without(es: seq<(string, Value)>, key: string): (r: seq<(string, Value)>)
    ensures Lookup(r, key).None?
    ensures forall k :: k != key ==> Lookup(r, k) == Lookup(es, k)
    ensures |r| <= |es|
  {
    if es == [] then []
    else if es[0].0 == key then Without(es[1..], key)
    else
      var rest := Without(es[1..], key);
      assert forall k :: k != key && k != es[0].0 ==> Lookup([es[0]] + rest, k) == Lookup(rest, k);
      [es[0]] + rest
  }

  // ---------------------------------------------------------------------------
  // The input-values widget
  // ---------------------------------------------------------------------------

  const PortMapKey: string := "_port_map"

  /** The input values sent to the task and the mapping from node input
      labels to app variable names. */
  datatype Payload = Payload(values: seq<(string, Value)>, portMap: Value)

  /** The parse of `input_values_json` (:276-285). `parsed` is the decoded
      widget text, `None` when the text is empty or not valid JSON; both then
      stay empty. Otherwise `_port_map` is popped out of the values and
      becomes the mapping, which stays `{}` when the key is absent. */
  function ParsePayload(parsed: Option<Value>): (p: Payload)
    ensures parsed.None? || !parsed.value.Obj? ==> p == Payload([], Obj([]))
    ensures Lookup(p.values, PortMapKey).None?
  {
    match parsed
    case None => Payload([], Obj([]))
    case Some(doc) =>
      if !doc.Obj? then Payload([], Obj([]))
      else Payload(Without(doc.entries, PortMapKey), GetOr(doc, PortMapKey, Obj([])))
  }

  /** Popping `_port_map` loses nothing else: every other key keeps its value,
      and the mapping is what was stored under `_port_map`. */
  lemma PayloadSplit(doc: Value, key: string)
    requires doc.Obj? && key != PortMapKey
    ensures Lookup(ParsePayload(Some(doc)).values, key) == Lookup(doc.entries, key)
    ensures HasKey(doc, PortMapKey) ==> ParsePayload(Some(doc)).portMap == Get(doc, PortMapKey)
    ensures !HasKey(doc, PortMapKey) ==> ParsePayload(Some(doc)).portMap == Obj([])
  {
  }

  // ---------------------------------------------------------------------------
  // The default-app list (:82-105)
  // ---------------------------------------------------------------------------

  /** `str(app["id"])` for a dict entry that has an `id` key. */
  function DictId(app: Value): (r: Option<string>)
    ensures r.Some? <==> app.Obj? && HasKey(app, "id")
  {
    if app.Obj? && HasKey(app, "id") then Some(Render(Get(app, "id"))) else None
  }

  /** An entry of the legacy flat list: a dict's id, or the text of a string
      or an int (a bool is an int to `isinstance`). */
  function LegacyId(app: Value): (r: Option<string>)
    ensures app.Str? ==> r == Some(app.s)
    ensures app.Int? && app.i >= 0 ==> r == Some(NatToString(app.i))
    ensures r.None? <==> !(app.Obj? && HasKey(app, "id")) && !(app.Str? || app.Int? || app.Bool?)
  {
    match DictId(app)
    case Some(s) => Some(s)
    case None => if app.Str? || app.Int? || app.Bool? then Some(Render(app)) else None
  }

  function IdOf(app: Value, legacy: bool): Option<string> {
    if legacy then LegacyId(app) else DictId(app)
  }

  /** The ids collected from one list of apps, in list order. */
  function IdsOf(apps: seq<Value>, legacy: bool): (r: seq<string>)
    ensures |r| <= |apps|
  {
    if apps == [] then []
    else
      match IdOf(apps[0], legacy)
      case Some(s) => [s] + IdsOf(apps[1..], legacy)
      case None => IdsOf(apps[1..], legacy)
  }

  /** The ids collected from the values of a category dict; values that are
      not lists are passed over. */
  function CategoryIds(cats: seq<(string, Value)>): seq<string> {
    if cats == [] then []
    else (if cats[0].1.List? then IdsOf(cats[0].1.items, false) else []) + CategoryIds(cats[1..])
  }

  /** The categories' ids come category by category, in dict order: the ids
      of a concatenation of categories are those of each part in turn. */
  lemma {:induction false} CategoryIdsConcat(a: seq<(string, Value)>, b: seq<(string, Value)>)
    ensures CategoryIds(a + b) == CategoryIds(a) + CategoryIds(b)
  {
    if a == [] {
      assert a + b == b;
    } else {
      var head := if a[0].1.List? then IdsOf(a[0].1.items, false) else [];
      assert (a + b)[0] == a[0];
      assert (a + b)[1..] == a[1..] + b;
      assert CategoryIds(a + b) == head + CategoryIds(a[1..] + b);
      assert CategoryIds(a) == head + CategoryIds(a[1..]);
      CategoryIdsConcat(a[1..], b);
      assert head + (CategoryIds(a[1..]) + CategoryIds(b)) == head + CategoryIds(a[1..]) + CategoryIds(b);
    }
  }

  /** The response's `default_apps` list. `config` is the decoded
      `default_apps.json`, `None` when the file is missing or unreadable. A
      top level that is not a dict, or `default_apps` of any shape other than a
      dict or a list, yields `[]`. */
  function DefaultAppIds(config: Option<Value>): (r: seq<string>)
    ensures config.None? || !config.value.Obj? ==> r == []
    ensures config.Some? && config.value.Obj? ==>
      var raw := GetOr(config.value, "default_apps", Obj([]));
      && (raw.Obj? ==> r == CategoryIds(raw.entries))
      && (raw.List? ==> r == IdsOf(raw.items, true))
      && (!raw.Obj? && !raw.List? ==> r == [])
  {
    match config
    case None => []
    case Some(data) =>
      if !data.Obj? then []
      else
        var raw := GetOr(data, "default_apps", Obj([]));
        if raw.Obj? then CategoryIds(raw.entries)
        else if raw.List? then IdsOf(raw.items, true)
        else []
  }

  /** Collecting ids distributes over the concatenation of app lists: one id
      per qualifying entry, in order. */
  lemma {:induction false} IdsOfConcat(a: seq<Value>, b: seq<Value>, legacy: bool)
    ensures IdsOf(a + b, legacy) == IdsOf(a, legacy) + IdsOf(b, legacy)
  {
    if a == [] {
      assert a + b == b;
    } else {
      assert (a + b)[0] == a[0];
      assert (a + b)[1..] == a[1..] + b;
      IdsOfConcat(a[1..], b, legacy);
    }
  }

  /** A legacy list of strings yields exactly those strings, in order. */
  lemma {:induction false} LegacyStrings(apps: seq<Value>)
    requires forall i :: 0 <= i < |apps| ==> apps[i].Str?
    ensures |IdsOf(apps, true)| == |apps|
    ensures forall i :: 0 <= i < |apps| ==> IdsOf(apps, true)[i] == apps[i].s
  {
    if apps != [] {
      LegacyStrings(apps[1..]);
    }
  }

  /** `s` is the rendered `id` of some dict entry of `apps`. */
  predicate IdFrom(apps: seq<Value>, s: string) {
    exists j :: 0 <= j < |apps| && apps[j].Obj? && HasKey(apps[j], "id") && s == Render(Get(apps[j], "id"))
  }

  /** Every collected id is the rendered `id` of some dict entry of the list. */
  lemma {:induction false} DictIdsFromEntries(apps: seq<Value>)
    ensures forall k :: 0 <= k < |IdsOf(apps, false)| ==> IdFrom(apps, IdsOf(apps, false)[k])
  {
    if apps != [] {
      DictIdsFromEntries(apps[1..]);
      var r := IdsOf(apps, false);
      var rest := IdsOf(apps[1..], false);
      forall k | 0 <= k < |r| ensures IdFrom(apps, r[k]) {
        if DictId(apps[0]).Some? && k == 0 {
          assert r[0] == Render(Get(apps[0], "id"));
        } else {
          var k' := if DictId(apps[0]).Some? then k - 1 else k;
          assert r[k] == rest[k'];
          assert IdFrom(apps[1..], rest[k']);
          var j :| 0 <= j < |apps[1..]| && apps[1..][j].Obj? && HasKey(apps[1..][j], "id") &&
            rest[k'] == Render(Get(apps[1..][j], "id"));
          assert apps[j + 1] == apps[1..][j];
        }
      }
    }
  }

  /** One list loop of the route: appends the id of every qualifying entry. */
  method CollectIds(apps: seq<Value>, legacy: bool) returns (ids: seq<string>)
    ensures ids == IdsOf(apps, legacy)
  {
    ids := [];
    var i := 0;
    while i < |apps|
      invariant 0 <= i <= |apps|
      invariant ids == IdsOf(apps[..i], legacy)
    {
      var app := apps[i];
      assert apps[..i + 1] == apps[..i] + [app];
      IdsOfConcat(apps[..i], [app], legacy);
      assert IdsOf([app], legacy) == if IdOf(app, legacy).Some? then [IdOf(app, legacy).value] else [];
      if app.Obj? && HasKey(app, "id") {
        ids := ids + [Render(Get(app, "id"))];
      } else if legacy && (app.Str? || app.Int? || app.Bool?) {
        ids := ids + [Render(app)];
      }
      i := i + 1;
    }
    assert apps[..i] == apps;
  }

  /** The route's parse of the config (:82-100): the category loop, or the
      legacy flat list. */
  method CollectDefaultApps(config: Option<Value>) returns (ids: seq<string>)
    ensures ids == DefaultAppIds(config)
  {
    ids := [];
    if config.None? || !config.value.Obj? {
      return;
    }
    var raw := GetOr(config.value, "default_apps", Obj([]));
    if raw.Obj? {
      var cats := raw.entries;
      var c := 0;
      while c < |cats|
        invariant 0 <= c <= |cats|
        invariant ids + CategoryIds(cats[c..]) == CategoryIds(cats)
      {
        assert cats[c..][1..] == cats[c + 1..];
        var category := cats[c].1;
        if category.List? {
          var found := CollectIds(category.items, false);
          ids := ids + found;
        }
        c := c + 1;
      }
    } else if raw.List? {
      ids := CollectIds(raw.items, true);
    }
  }

  // ---------------------------------------------------------------------------
  // Input uploads (:326-341)
  // ---------------------------------------------------------------------------

  /** One image of a connected batch: the random name part, the size of its
      PNG encoding, and what the token endpoint, the clock and the storage PUT
      gave back for it. */
  datatype ImageUpload = ImageUpload(uid: string, size: nat, token: TokenReply, date: string, putStatus: int)

  /** A keyword argument of the node: an image batch (a tensor) or any other value. */
  datatype Arg = Tensor(images: seq<ImageUpload>) | Plain(v: Value)

  datatype Kwarg = Kwarg(port: string, arg: Arg)

  /** The file name of the `i`-th image of a batch. */
  function UploadName(uid: string, i: nat): string {
    "comfy_upload_" + uid + "_" + NatToString(i) + ".png"
  }

  /** How the loop treats an input label (:327-328). `mapping_dict` is
      whatever the widget stored under `_port_map`. On a dict, `label not in
      mapping_dict` skips an absent label and `mapping_dict[label]` names the
      variable. On a list or a string the membership test is element or
      substring membership, and a label that passes it makes the subscript
      raise. On `None`, a number or a bool the membership test itself raises.
      A dict entry whose value is a list or a dict names no usable variable:
      storing under it (:339, :341) raises, because such a key is unhashable. */
  datatype Mapping = Unmapped | MappedTo(name: string) | UnhashableName | MapRaises

  function Target(portMap: Value, port: string): (m: Mapping)
    ensures m.MappedTo? ==> portMap.Obj? && HasKey(portMap, port) && Get(portMap, port) == Str(m.name)
    ensures portMap.Obj? ==> !m.MapRaises? && (m.MappedTo? <==> HasKey(portMap, port) && Get(portMap, port).Str?)
    ensures m.UnhashableName? <==>
      portMap.Obj? && HasKey(portMap, port) && (Get(portMap, port).List? || Get(portMap, port).Obj?)
    ensures portMap.List? ==> !m.MappedTo? && (m.MapRaises? <==> Str(port) in portMap.items)
    ensures portMap.Str? ==> !m.MappedTo? && (m.MapRaises? <==> Contains(portMap.s, port))
    ensures portMap.Null? || portMap.Bool? || portMap.Int? || portMap.Float? ==> m.MapRaises?
  {
    match portMap
    case Obj(_) =>
      if !HasKey(portMap, port) then Unmapped
      else
        (match Get(portMap, port)
         case Str(name) => MappedTo(name)
         case List(_) => UnhashableName
         case Obj(_) => UnhashableName
         case _ => Unmapped)
    case List(items) => if Str(port) in items then MapRaises else Unmapped
    case Str(s) => if Contains(s, port) then MapRaises else Unmapped
    case _ => MapRaises
  }

  /** The value written for a batch: the list of URLs when there are several,
      the URL itself when there is one, `None` when the batch is empty. */
  function BatchValue(urls: seq<string>): (v: Value)
    ensures |urls| > 1 ==> v.List? && |v.items| == |urls| && forall i :: 0 <= i < |urls| ==> v.items[i] == Str(urls[i])
    ensures |urls| == 1 ==> v == Str(urls[0])
    ensures |urls| == 0 ==> v == Null
  {
    if |urls| > 1 then List(seq(|urls|, i requires 0 <= i < |urls| => Str(urls[i])))
    else if |urls| == 1 then Str(urls[0])
    else Null
  }

  datatype BatchOutcome =
    | BatchDone(urls: seq<string>, puts: seq<OssPut>)
    | BatchFailed(error: UploadResult, puts: seq<OssPut>)

  /** The upload of image `l` of a batch, under its own file name. */
  function ImageTrace(images: seq<ImageUpload>, l: nat, sign: (string, string) -> string): UploadTrace
    requires l < |images|
  {
    Upload(UploadName(images[l].uid, l), images[l].size, images[l].token, images[l].date, images[l].putStatus, sign)
  }

  /** Uploads images `i..` of a batch in order, after `urls` were obtained and
      `puts` sent for the earlier ones; the first failing upload ends the batch. */
  function UploadImages(images: seq<ImageUpload>, i: nat, urls: seq<string>, puts: seq<OssPut>,
                        sign: (string, string) -> string): (r: BatchOutcome)
    requires i <= |images|
    ensures r.BatchFailed? ==> !r.error.Uploaded?
    decreases |images| - i
  {
    if i == |images| then BatchDone(urls, puts)
    else
      var t := ImageTrace(images, i, sign);
      if t.result.Uploaded? then UploadImages(images, i + 1, urls + [t.result.url], puts + t.puts, sign)
      else BatchFailed(t.result, puts + t.puts)
  }

  /** The PUTs sent for images `i` to `f - 1`. */
  function PutsBetween(images: seq<ImageUpload>, i: nat, f: nat, sign: (string, string) -> string): seq<OssPut>
    requires i <= f <= |images|
    decreases f - i
  {
    if i == f then [] else ImageTrace(images, i, sign).puts + PutsBetween(images, i + 1, f, sign)
  }

  /** One step of a batch: image `i` is uploaded, then the batch goes on
      with the next image or ends with its error. */
  lemma UploadImagesStep(images: seq<ImageUpload>, i: nat, urls: seq<string>, puts: seq<OssPut>,
                         sign: (string, string) -> string)
    requires i < |images|
    ensures var t := ImageTrace(images, i, sign);
      UploadImages(images, i, urls, puts, sign) ==
        if t.result.Uploaded? then UploadImages(images, i + 1, urls + [t.result.url], puts + t.puts, sign)
        else BatchFailed(t.result, puts + t.puts)
  {
  }

  /** The PUTs of images `i` to `f` are those of image `i`, then those of
      images `i + 1` to `f`. */
  lemma PutsBetweenStep(images: seq<ImageUpload>, i: nat, f: nat, sign: (string, string) -> string)
    requires i <= f < |images|
    ensures PutsBetween(images, i, f + 1, sign) == ImageTrace(images, i, sign).puts + PutsBetween(images, i + 1, f + 1, sign)
    ensures i == f ==> PutsBetween(images, i + 1, f + 1, sign) == []
  {
  }

  /** The first image whose upload fails ends the batch with that upload's
      error; the PUTs sent are those of the images up to and including it,
      and none for a later image. */
  lemma {:induction false} FirstFailureEndsBatch(images: seq<ImageUpload>, i: nat, urls: seq<string>,
                                                 puts: seq<OssPut>, sign: (string, string) -> string, f: nat)
    requires i <= f < |images|
    requires forall l :: i <= l < f ==> ImageTrace(images, l, sign).result.Uploaded?
    requires !ImageTrace(images, f, sign).result.Uploaded?
    ensures UploadImages(images, i, urls, puts, sign) ==
      BatchFailed(ImageTrace(images, f, sign).result, puts + PutsBetween(images, i, f + 1, sign))
    decreases f - i
  {
    var t := ImageTrace(images, i, sign);
    var later := PutsBetween(images, i + 1, f + 1, sign);
    UploadImagesStep(images, i, urls, puts, sign);
    PutsBetweenStep(images, i, f, sign);
    if i < f {
      assert t.result.Uploaded?;
      FirstFailureEndsBatch(images, i + 1, urls + [t.result.url], puts + t.puts, sign, f);
      assert puts + t.puts + later == puts + (t.puts + later);
    } else {
      assert t.puts + later == t.puts;
    }
  }

  /** A batch sends at most one PUT per image, after the PUTs already sent. */
  lemma {:induction false} BatchPuts(images: seq<ImageUpload>, i: nat, urls: seq<string>, puts: seq<OssPut>,
                                     sign: (string, string) -> string)
    requires i <= |images|
    ensures var r := UploadImages(images, i, urls, puts, sign);
      |puts| <= |r.puts| <= |puts| + |images| - i && r.puts[..|puts|] == puts
    decreases |images| - i
  {
    if i < |images| {
      var t := ImageTrace(images, i, sign);
      if t.result.Uploaded? {
        BatchPuts(images, i + 1, urls + [t.result.url], puts + t.puts, sign);
        var r := UploadImages(images, i, urls, puts, sign);
        assert r.puts[..|puts|] == r.puts[..|puts + t.puts|][..|puts|];
      } else {
        assert (puts + t.puts)[..|puts|] == puts;
      }
    }
  }

  /** The URL image `i` lands at when its upload succeeds. */
  function ImageUrl(img: ImageUpload): string {
    ObjectUrl(img.token.cred)
  }

  /** A batch whose uploads all succeed yields one URL per image, in order,
      each the public URL of that image's object, after one PUT per image. */
  lemma {:induction false} BatchUrls(images: seq<ImageUpload>, i: nat, urls: seq<string>, puts: seq<OssPut>,
                                     sign: (string, string) -> string)
    requires i <= |images|
    requires UploadImages(images, i, urls, puts, sign).BatchDone?
    ensures var r := UploadImages(images, i, urls, puts, sign);
      |r.urls| == |urls| + |images| - i && r.urls[..|urls|] == urls &&
      |r.puts| == |puts| + |images| - i &&
      forall k :: i <= k < |images| ==> r.urls[|urls| + k - i] == ImageUrl(images[k])
    decreases |images| - i
  {
    if i < |images| {
      var img := images[i];
      var t := ImageTrace(images, i, sign);
      var r := UploadImages(images, i, urls, puts, sign);
      var urls' := urls + [t.result.url];
      UploadImagesStep(images, i, urls, puts, sign);
      assert t.result.Uploaded? && |t.puts| == 1 && t.result.url == ImageUrl(img);
      assert r == UploadImages(images, i + 1, urls', puts + t.puts, sign);
      BatchUrls(images, i + 1, urls', puts + t.puts, sign);
      assert r.urls[..|urls'|] == urls';
      assert r.urls[..|urls|] == urls by {
        assert r.urls[..|urls|] == r.urls[..|urls'|][..|urls|];
      }
      forall k | i <= k < |images|
        ensures r.urls[|urls| + k - i] == ImageUrl(images[k])
      {
        if k == i {
          assert r.urls[|urls|] == r.urls[..|urls'|][|urls|];
        } else {
          assert |urls'| + k - (i + 1) == |urls| + k - i;
        }
      }
    }
  }

  /** Why the upload loop stopped early: an upload failed, or the port map
      made the loop raise. */
  datatype Abort = UploadAborted(error: UploadResult) | PortMapRaised

  /** The result of the upload loop: the input values, the storage PUTs sent
      and, when the loop stopped early, why (which aborts the node). */
  datatype Uploads = Uploads(values: seq<(string, Value)>, puts: seq<OssPut>, failure: Option<Abort>)

  /** How many images the argument's batch uploads, when its label is mapped
      to a name (usable or unhashable); `0` for a plain value or an unmapped
      label. */
  function BatchImages(arg: Kwarg, portMap: Value): nat {
    var m := Target(portMap, arg.port);
    if (m.MappedTo? || m.UnhashableName?) && arg.arg.Tensor? then |arg.arg.images| else 0
  }

  /** One argument of the loop (:327-341): the values and PUTs after it and,
      when it stops the loop, why. An unmapped label changes nothing; a
      mapped plain value is written as is; a mapped batch is uploaded image
      by image and its URLs are written. Under an unhashable name the write
      raises, after the batch's uploads. */
  function StoreStep(arg: Kwarg, portMap: Value, values: seq<(string, Value)>, puts: seq<OssPut>,
                     sign: (string, string) -> string): (r: Uploads)
    ensures r.failure.Some? && r.failure.value.UploadAborted? ==> !r.failure.value.error.Uploaded?
    ensures !Target(portMap, arg.port).MappedTo? ==> r.values == values
  {
    var m := Target(portMap, arg.port);
    if m.Unmapped? then Uploads(values, puts, None)
    else if m.MapRaises? then Uploads(values, puts, Some(PortMapRaised))
    else
      match arg.arg
      case Plain(v) =>
        if m.MappedTo? then Uploads(Assign(values, m.name, v), puts, None)
        else Uploads(values, puts, Some(PortMapRaised))
      case Tensor(images) =>
        var b := UploadImages(images, 0, [], [], sign);
        if b.BatchFailed? then Uploads(values, puts + b.puts, Some(UploadAborted(b.error)))
        else if m.MappedTo? then Uploads(Assign(values, m.name, BatchValue(b.urls)), puts + b.puts, None)
        else Uploads(values, puts + b.puts, Some(PortMapRaised))
  }

  /** The upload loop from keyword argument `k` on, one argument at a time,
      until an argument stops it. */
  function ApplyKwargs(kwargs: seq<Kwarg>, k: nat, portMap: Value, values: seq<(string, Value)>,
                       puts: seq<OssPut>, sign: (string, string) -> string): (r: Uploads)
    requires k <= |kwargs|
    ensures r.failure.Some? && r.failure.value.UploadAborted? ==> !r.failure.value.error.Uploaded?
    ensures k < |kwargs| && (portMap.Null? || portMap.Bool? || portMap.Int? || portMap.Float?) ==>
      r == Uploads(values, puts, Some(PortMapRaised))
    decreases |kwargs| - k
  {
    if k == |kwargs| then Uploads(values, puts, None)
    else
      var st := StoreStep(kwargs[k], portMap, values, puts, sign);
      if st.failure.Some? then st else ApplyKwargs(kwargs, k + 1, portMap, st.values, st.puts, sign)
  }

  /** An argument mapped to an unhashable name ends the loop: a plain value
      at once, a batch after all its uploads were attempted; unless an upload
      failed first, the loop raises on the write, and no value is written. */
  lemma UnhashableNameRaises(kwargs: seq<Kwarg>, k: nat, portMap: Value, values: seq<(string, Value)>,
                             puts: seq<OssPut>, sign: (string, string) -> string)
    requires k < |kwargs| && Target(portMap, kwargs[k].port).UnhashableName?
    ensures var r := ApplyKwargs(kwargs, k, portMap, values, puts, sign);
      && r.values == values && r.failure.Some?
      && (kwargs[k].arg.Plain? ==> r.puts == puts && r.failure == Some(PortMapRaised))
      && (kwargs[k].arg.Tensor? ==>
            var b := UploadImages(kwargs[k].arg.images, 0, [], [], sign);
            r.puts == puts + b.puts && (r.failure == Some(PortMapRaised) <==> b.BatchDone?))
  {
  }

  /** An argument not mapped to `key` leaves the value under `key` alone. */
  lemma StoreStepKeeps(arg: Kwarg, portMap: Value, values: seq<(string, Value)>, puts: seq<OssPut>,
                       sign: (string, string) -> string, key: string)
    requires Target(portMap, arg.port) != MappedTo(key)
    ensures Lookup(StoreStep(arg, portMap, values, puts, sign).values, key) == Lookup(values, key)
  {
  }

  /** An argument mapped to `key` that does not stop the loop writes its
      value there: a plain value as is, a batch (then fully uploaded) as its
      URLs. */
  lemma StoreStepWrites(arg: Kwarg, portMap: Value, values: seq<(string, Value)>, puts: seq<OssPut>,
                        sign: (string, string) -> string, key: string)
    requires Target(portMap, arg.port) == MappedTo(key)
    requires StoreStep(arg, portMap, values, puts, sign).failure.None?
    ensures var st := StoreStep(arg, portMap, values, puts, sign);
      match arg.arg
      case Plain(v) => Lookup(st.values, key) == Some(v)
      case Tensor(images) =>
        UploadImages(images, 0, [], [], sign).BatchDone? &&
        Lookup(st.values, key) == Some(BatchValue(UploadImages(images, 0, [], [], sign).urls))
  {
  }

  /** One argument adds at most one PUT per image of its mapped batch, after
      those already sent. */
  lemma StoreStepPuts(arg: Kwarg, portMap: Value, values: seq<(string, Value)>, puts: seq<OssPut>,
                      sign: (string, string) -> string)
    ensures var st := StoreStep(arg, portMap, values, puts, sign);
      |puts| <= |st.puts| <= |puts| + BatchImages(arg, portMap) && st.puts[..|puts|] == puts
  {
    var m := Target(portMap, arg.port);
    if (m.MappedTo? || m.UnhashableName?) && arg.arg.Tensor? {
      BatchAfter(puts, arg.arg.images, sign);
    }
  }

  /** Some argument from `k` on is mapped to variable `key`. */
  predicate TargetedFrom(kwargs: seq<Kwarg>, k: nat, portMap: Value, key: string) {
    exists j :: k <= j < |kwargs| && Target(portMap, kwargs[j].port) == MappedTo(key)
  }

  /** Input values that no mapped argument names keep their value: kwargs
      whose labels are not in the port map change nothing. */
  lemma {:induction false} UntargetedUnchanged(kwargs: seq<Kwarg>, k: nat, portMap: Value,
                                               values: seq<(string, Value)>, puts: seq<OssPut>,
                                               sign: (string, string) -> string, key: string)
    requires k <= |kwargs|
    requires !TargetedFrom(kwargs, k, portMap, key)
    ensures Lookup(ApplyKwargs(kwargs, k, portMap, values, puts, sign).values, key) == Lookup(values, key)
    decreases |kwargs| - k
  {
    if k < |kwargs| {
      var st := StoreStep(kwargs[k], portMap, values, puts, sign);
      assert Target(portMap, kwargs[k].port) != MappedTo(key);
      StoreStepKeeps(kwargs[k], portMap, values, puts, sign, key);
      if st.failure.None? {
        assert !TargetedFrom(kwargs, k + 1, portMap, key);
        UntargetedUnchanged(kwargs, k + 1, portMap, st.values, st.puts, sign, key);
      }
    }
  }

  /** When the loop runs to the end, the argument mapped last to a variable
      decides its value: a plain argument's own value, or the value for its
      batch's URLs (that batch then uploaded fully). */
  lemma {:induction false} LastWriteWins(kwargs: seq<Kwarg>, k: nat, portMap: Value,
                                         values: seq<(string, Value)>, puts: seq<OssPut>,
                                         sign: (string, string) -> string, key: string, j: nat)
    requires k <= j < |kwargs|
    requires Target(portMap, kwargs[j].port) == MappedTo(key)
    requires !TargetedFrom(kwargs, j + 1, portMap, key)
    requires ApplyKwargs(kwargs, k, portMap, values, puts, sign).failure.None?
    ensures var r := ApplyKwargs(kwargs, k, portMap, values, puts, sign);
      match kwargs[j].arg
      case Plain(v) => Lookup(r.values, key) == Some(v)
      case Tensor(images) =>
        UploadImages(images, 0, [], [], sign).BatchDone? &&
        Lookup(r.values, key) == Some(BatchValue(UploadImages(images, 0, [], [], sign).urls))
    decreases |kwargs| - k
  {
    var st := StoreStep(kwargs[k], portMap, values, puts, sign);
    assert st.failure.None?;
    if k < j {
      LastWriteWins(kwargs, k + 1, portMap, st.values, st.puts, sign, key, j);
    } else {
      StoreStepWrites(kwargs[j], portMap, values, puts, sign, key);
      UntargetedUnchanged(kwargs, k + 1, portMap, st.values, st.puts, sign, key);
    }
  }

  /** The images of the batches mapped from argument `k` on, to a name or to
      an unhashable one. */
  function MappedImages(kwargs: seq<Kwarg>, k: nat, portMap: Value): nat
    requires k <= |kwargs|
    decreases |kwargs| - k
  {
    if k == |kwargs| then 0 else BatchImages(kwargs[k], portMap) + MappedImages(kwargs, k + 1, portMap)
  }

  /** A whole batch adds at most one PUT per image after those already sent. */
  lemma BatchAfter(puts: seq<OssPut>, images: seq<ImageUpload>, sign: (string, string) -> string)
    ensures var p := UploadImages(images, 0, [], [], sign).puts;
      |p| <= |images| && (puts + p)[..|puts|] == puts
  {
    BatchPuts(images, 0, [], [], sign);
    var p := UploadImages(images, 0, [], [], sign).puts;
    assert (puts + p)[..|puts|] == puts;
  }

  /** Only mapped batches send PUTs, at most one per image: an unmapped
      argument or a plain value sends none. */
  lemma {:induction false} PutsOnlyForMappedImages(kwargs: seq<Kwarg>, k: nat, portMap: Value,
                                                   values: seq<(string, Value)>, puts: seq<OssPut>,
                                                   sign: (string, string) -> string)
    requires k <= |kwargs|
    ensures var r := ApplyKwargs(kwargs, k, portMap, values, puts, sign);
      |puts| <= |r.puts| <= |puts| + MappedImages(kwargs, k, portMap) && r.puts[..|puts|] == puts
    decreases |kwargs| - k
  {
    if k < |kwargs| {
      var st := StoreStep(kwargs[k], portMap, values, puts, sign);
      StoreStepPuts(kwargs[k], portMap, values, puts, sign);
      if st.failure.None? {
        PutsOnlyForMappedImages(kwargs, k + 1, portMap, st.values, st.puts, sign);
        var r := ApplyKwargs(kwargs, k, portMap, values, puts, sign);
        assert r.puts[..|puts|] == r.puts[..|st.puts|][..|puts|];
      }
    }
  }

  /** One batch of the loop (:330-337), image by image. */
  method UploadBatch(images: seq<ImageUpload>, sign: (string, string) -> string) returns (b: BatchOutcome)
    ensures b == UploadImages(images, 0, [], [], sign)
  {
    var urls: seq<string> := [];
    var puts: seq<OssPut> := [];
    var i := 0;
    while i < |images|
      invariant 0 <= i <= |images|
      invariant UploadImages(images, i, urls, puts, sign) == UploadImages(images, 0, [], [], sign)
    {
      var img := images[i];
      var t := Upload(UploadName(img.uid, i), img.size, img.token, img.date, img.putStatus, sign);
      puts := puts + t.puts;
      if !t.result.Uploaded? {
        return BatchFailed(t.result, puts);
      }
      urls := urls + [t.result.url];
      i := i + 1;
    }
    b := BatchDone(urls, puts);
  }

  /** One argument of the loop (:327-341), the batch uploaded by the loop
      of `UploadBatch`. */
  method StoreArgument(arg: Kwarg, portMap: Value, values: seq<(string, Value)>,
                       puts: seq<OssPut>, sign: (string, string) -> string) returns (r: Uploads)
    ensures r == StoreStep(arg, portMap, values, puts, sign)
  {
    r := Uploads(values, puts, None);
    var mapping := Target(portMap, arg.port);
    if mapping.MapRaises? {
      r := r.(failure := Some(PortMapRaised));
    } else if !mapping.Unmapped? {
      match arg.arg {
        case Plain(v) =>
          if mapping.MappedTo? {
            r := r.(values := Assign(values, mapping.name, v));
          } else {
            r := r.(failure := Some(PortMapRaised));
          }
        case Tensor(images) =>
          var batch := UploadBatch(images, sign);
          r := r.(puts := puts + batch.puts);
          if batch.BatchFailed? {
            r := r.(failure := Some(UploadAborted(batch.error)));
          } else if mapping.MappedTo? {
            r := r.(values := Assign(values, mapping.name, BatchValue(batch.urls)));
          } else {
            r := r.(failure := Some(PortMapRaised));
          }
      }
    }
  }

  /** The upload loop (:326-341) over the keyword arguments in order. */
  method ProcessUploads(kwargs: seq<Kwarg>, portMap: Value, values0: seq<(string, Value)>,
                        sign: (string, string) -> string) returns (u: Uploads)
    ensures u == ApplyKwargs(kwargs, 0, portMap, values0, [], sign)
  {
    var values := values0;
    var puts: seq<OssPut> := [];
    var k := 0;
    while k < |kwargs|
      invariant 0 <= k <= |kwargs|
      invariant ApplyKwargs(kwargs, k, portMap, values, puts, sign) == ApplyKwargs(kwargs, 0, portMap, values0, [], sign)
    {
      var st := StoreArgument(kwargs[k], portMap, values, puts, sign);
      if st.failure.Some? {
        return st;
      }
      values, puts := st.values, st.puts;
      k := k + 1;
    }
    u := Uploads(values, puts, None);
  }
}
