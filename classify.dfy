/** Two read-only judgements the node makes about JSON it receives: whether an
    app is a Pro (audio/video) feature, and which error message to show for a
    failed task. A Python exception raised while judging is `None`. */
module Classify {
  import opened Text
  import opened Json

  // ---------------------------------------------------------------------------
  // Pro-feature classification
  // ---------------------------------------------------------------------------

  /** `(web_app_name or "").lower()`; `None` when the name is a truthy
      non-string (Python has no `.lower()` for it). */
  function NameText(name: Value): (r: Option<string>)
    ensures !Truthy(name) ==> r == Some("")
    ensures name.Str? ==> r == Some(Lower(name.s))
    ensures Truthy(name) && !name.Str? ==> r.None?
  {
    if !Truthy(name) then Some("")
    else if name.Str? then Some(Lower(name.s))
    else None
  }

  /** The app name names a Pro feature: it contains "video", "视频", "audio" or "音频". */
  predicate NameHit(lower: string) {
    || Contains(lower, "video")
    || Contains(lower, "\U{89C6}\U{9891}")
    || Contains(lower, "audio")
    || Contains(lower, "\U{97F3}\U{9891}")
  }

  /** `(node.get("node_type") or "").lower()`; `None` when the node is not a
      dict or its type is a truthy non-string. */
  function NodeTypeText(node: Value): (r: Option<string>)
    ensures !node.Obj? ==> r.None?
    ensures node.Obj? && !Truthy(Get(node, "node_type")) ==> r == Some("")
    ensures node.Obj? && Get(node, "node_type").Str? ==> r == Some(Lower(Get(node, "node_type").s))
    ensures node.Obj? && Truthy(Get(node, "node_type")) && !Get(node, "node_type").Str? ==> r.None?
  {
    if !node.Obj? then None
    else NameText(Get(node, "node_type"))
  }

  /** A lower-cased node type that loads video or audio. */
  predicate NodeHit(t: string) {
    Contains(t, "loadvideo") || Contains(t, "loadaudio")
  }

  /** Node `n` can be read and loads video or audio. */
  predicate NodeLoadsMedia(n: Value) {
    NodeTypeText(n).Some? && NodeHit(NodeTypeText(n).value)
  }

  /** Node `n` can be read and does not load video or audio. */
  predicate NodeIsPlain(n: Value) {
    NodeTypeText(n).Some? && !NodeHit(NodeTypeText(n).value)
  }

  /** Node `i` is the first that loads video or audio, and every node before
      it can be read and does not. */
  predicate FirstHit(nodes: seq<Value>, i: int) {
    && 0 <= i < |nodes|
    && NodeLoadsMedia(nodes[i])
    && forall j :: 0 <= j < i ==> NodeIsPlain(nodes[j])
  }

  /** The loop over `input_nodes`: `Some(true)` at the first media-loading
      node, `Some(false)` when none is found, `None` when a node met before any
      hit cannot be read. */
  function ScanNodes(nodes: seq<Value>): (r: Option<bool>)
    ensures r == Some(true) <==> exists i :: FirstHit(nodes, i)
    ensures r == Some(false) <==> forall i :: 0 <= i < |nodes| ==> NodeIsPlain(nodes[i])
    ensures r.None? ==> exists i :: 0 <= i < |nodes| && NodeTypeText(nodes[i]).None?
  {
    if nodes == [] then Some(false)
    else
      var rest := ScanNodes(nodes[1..]);
      PlainTail(nodes);
      UnreadableTail(nodes);
      match NodeTypeText(nodes[0])
      case None => None
      case Some(t) =>
        if NodeHit(t) then
          assert FirstHit(nodes, 0);
          Some(true)
        else
          FirstHitTail(nodes);
          rest
  }

  /** Past a plain first node, the first hit is the first hit of the rest. */
  lemma FirstHitTail(nodes: seq<Value>)
    requires nodes != [] && NodeIsPlain(nodes[0])
    ensures (exists i :: FirstHit(nodes, i)) <==> exists i :: FirstHit(nodes[1..], i)
  {
    if i :| FirstHit(nodes, i) {
      assert forall j :: 0 <= j < i - 1 ==> nodes[1..][j] == nodes[j + 1];
      assert FirstHit(nodes[1..], i - 1);
    }
    if i :| FirstHit(nodes[1..], i) {
      assert forall j :: 1 <= j < i + 1 ==> nodes[j] == nodes[1..][j - 1];
      assert FirstHit(nodes, i + 1);
    }
  }

  /** All nodes are plain exactly when the first and all the rest are. */
  lemma PlainTail(nodes: seq<Value>)
    requires nodes != []
    ensures (forall i :: 0 <= i < |nodes| ==> NodeIsPlain(nodes[i])) <==>
      NodeIsPlain(nodes[0]) && forall i :: 0 <= i < |nodes| - 1 ==> NodeIsPlain(nodes[1..][i])
  {
    assert forall i :: 1 <= i < |nodes| ==> nodes[i] == nodes[1..][i - 1];
  }

  /** An unreadable node of the rest is an unreadable node of the whole. */
  lemma UnreadableTail(nodes: seq<Value>)
    requires nodes != []
    ensures (exists i :: 0 <= i < |nodes| - 1 && NodeTypeText(nodes[1..][i]).None?) ==>
      exists i :: 0 <= i < |nodes| && NodeTypeText(nodes[i]).None?
  {
    if i :| 0 <= i < |nodes| - 1 && NodeTypeText(nodes[1..][i]).None? {
      assert nodes[i + 1] == nodes[1..][i];
    }
  }

  /** `_check_is_pro(data, web_app_name)`: the name is checked first and a hit
      answers without looking at `data`; otherwise the `input_nodes` of `data`
      (default `[]`) are scanned. `None` when Python would raise. */
  function CheckIsPro(data: Value, name: Value): (r: Option<bool>)
    ensures NameText(name).Some? && NameHit(NameText(name).value) ==> r == Some(true)
    ensures NameText(name).None? ==> r.None?
    ensures !data.Obj? && !(NameText(name).Some? && NameHit(NameText(name).value)) ==> r.None?
  {
    match NameText(name)
    case None => None
    case Some(lower) =>
      if NameHit(lower) then Some(true)
      else if !data.Obj? then None
      else
        match Iterate(GetOr(data, "input_nodes", List([])))
        case None => None
        case Some(nodes) => ScanNodes(nodes)
  }

  /** The input nodes of `data` as the scan sees them. */
  function InputNodes(data: Value): Option<seq<Value>>
    requires data.Obj?
  {
    Iterate(GetOr(data, "input_nodes", List([])))
  }

  /** When every node can be read, the scan answers whether some node loads
      video or audio. */
  lemma {:induction false} ScanExactly(nodes: seq<Value>)
    requires forall i :: 0 <= i < |nodes| ==> NodeTypeText(nodes[i]).Some?
    ensures ScanNodes(nodes) == Some(exists i :: 0 <= i < |nodes| && NodeLoadsMedia(nodes[i]))
  {
    if nodes != [] {
      var rest := nodes[1..];
      assert forall i :: 0 <= i < |rest| ==> rest[i] == nodes[i + 1];
      ScanExactly(rest);
      if !NodeLoadsMedia(nodes[0]) {
        var here := exists i :: 0 <= i < |nodes| && NodeLoadsMedia(nodes[i]);
        var there := exists i :: 0 <= i < |rest| && NodeLoadsMedia(rest[i]);
        assert here ==> there by {
          if here {
            var i :| 0 <= i < |nodes| && NodeLoadsMedia(nodes[i]);
            assert NodeLoadsMedia(rest[i - 1]);
          }
        }
        assert there ==> here by {
          if there {
            var i :| 0 <= i < |rest| && NodeLoadsMedia(rest[i]);
            assert NodeLoadsMedia(nodes[i + 1]);
          }
        }
      }
    }
  }

  /** When nothing raises, an app is Pro exactly when its name hits a keyword or
      some input node loads video or audio. */
  lemma ProExactly(data: Value, name: Value)
    requires NameText(name).Some? && data.Obj? && InputNodes(data).Some?
    requires forall i :: 0 <= i < |InputNodes(data).value| ==> NodeTypeText(InputNodes(data).value[i]).Some?
    ensures CheckIsPro(data, name) == Some(
      NameHit(NameText(name).value) ||
      exists i :: 0 <= i < |InputNodes(data).value| && NodeLoadsMedia(InputNodes(data).value[i]))
  {
    ScanExactly(InputNodes(data).value);
  }

  // ---------------------------------------------------------------------------
  // Error-message extraction
  // ---------------------------------------------------------------------------

  /** The message shown when the server gives no usable one. */
  const UnknownError: string := "Unknown error (No detailed error message found)"

  /** An output entry reports an error with a message: its `error_type` is not
      "NOT_ERROR" (a missing type counts as an error) and its `error_msg` is truthy. */
  predicate ReportsError(out: Value)
    requires out.Obj?
  {
    !IsStr(Get(out, "error_type"), "NOT_ERROR") && Truthy(Get(out, "error_msg"))
  }

  /** Entry `i` is the first entry that reports an error, and every entry
      before it is a dict that does not. */
  predicate FirstReport(outs: seq<Value>, i: int) {
    && 0 <= i < |outs|
    && outs[i].Obj? && ReportsError(outs[i])
    && forall j :: 0 <= j < i ==> outs[j].Obj? && !ReportsError(outs[j])
  }

  /** Entry `i` is not a dict, and every entry before it is a dict that does
      not report an error: Python raises at entry `i`. */
  predicate FirstMalformed(outs: seq<Value>, i: int) {
    && 0 <= i < |outs|
    && !outs[i].Obj?
    && forall j :: 0 <= j < i ==> outs[j].Obj? && !ReportsError(outs[j])
  }

  /** The loop over `outputs` in `_extract_error`. */
  function ScanOutputs(outs: seq<Value>): (r: Option<Value>)
    ensures r.Some? ==> Truthy(r.value)
    ensures forall i :: FirstReport(outs, i) ==> r == Some(Get(outs[i], "error_msg"))
    ensures (forall i :: 0 <= i < |outs| ==> outs[i].Obj? && !ReportsError(outs[i])) ==>
      r == Some(Str(UnknownError))
    ensures r.None? <==> exists i :: FirstMalformed(outs, i)
  {
    if outs == [] then Some(Str(UnknownError))
    else if !outs[0].Obj? then
      assert FirstMalformed(outs, 0);
      None
    else if ReportsError(outs[0]) then
      assert forall i :: !FirstMalformed(outs, i);
      Some(Get(outs[0], "error_msg"))
    else
      var rest := ScanOutputs(outs[1..]);
      assert forall i :: 1 <= i < |outs| ==> outs[i] == outs[1..][i - 1];
      assert forall i :: FirstReport(outs, i) ==> i > 0 && FirstReport(outs[1..], i - 1);
      assert (exists i :: FirstMalformed(outs, i)) ==> exists i :: FirstMalformed(outs[1..], i) by {
        if i :| FirstMalformed(outs, i) {
          assert FirstMalformed(outs[1..], i - 1);
        }
      }
      assert (exists i :: FirstMalformed(outs[1..], i)) ==> exists i :: FirstMalformed(outs, i) by {
        if i :| FirstMalformed(outs[1..], i) {
          assert FirstMalformed(outs, i + 1);
        }
      }
      rest
  }

  /** `_extract_error(data)`: a truthy top-level `error`, else the message of
      the first output entry that reports an error, else `UnknownError`.
      `None` when Python would raise (a non-dict record or output entry). */
  function ExtractError(data: Value): (r: Option<Value>)
    ensures r.Some? ==> Truthy(r.value)
    ensures data.Obj? && Truthy(Get(data, "error")) ==> r == Some(Get(data, "error"))
    ensures data.Obj? && !Truthy(Get(data, "error")) && !(Get(data, "outputs").List? && Truthy(Get(data, "outputs"))) ==>
      r == Some(Str(UnknownError))
    ensures data.Obj? && !Truthy(Get(data, "error")) && Get(data, "outputs").List? ==>
      forall i :: FirstReport(Get(data, "outputs").items, i) ==>
        r == Some(Get(Get(data, "outputs").items[i], "error_msg"))
    ensures !data.Obj? ==> r.None?
  {
    if !data.Obj? then None
    else
      var err := Get(data, "error");
      if Truthy(err) then Some(err)
      else
        var outputs := Get(data, "outputs");
        if Truthy(outputs) && outputs.List? then ScanOutputs(outputs.items)
        else Some(Str(UnknownError))
  }

  /** The extracted message is never empty and is always one of three things:
      the record's `error`, some output entry's `error_msg`, or `UnknownError`. */
  lemma ExtractErrorSource(data: Value)
    requires ExtractError(data).Some?
    ensures var m := ExtractError(data).value;
      Truthy(m) &&
      (|| m == Get(data, "error")
       || m == Str(UnknownError)
       || exists i :: FirstReport(Get(data, "outputs").items, i) && m == Get(Get(data, "outputs").items[i], "error_msg"))
  {
    var m := ExtractError(data).value;
    if m != Get(data, "error") && m != Str(UnknownError) {
      var outs := Get(data, "outputs").items;
      FirstReportExists(outs);
    }
  }

  /** When the scan of the outputs returns a message other than the default,
      some entry is the first to report an error. */
  lemma {:induction false} FirstReportExists(outs: seq<Value>)
    requires ScanOutputs(outs).Some? && ScanOutputs(outs).value != Str(UnknownError)
    ensures exists i :: FirstReport(outs, i)
  {
    if ReportsError(outs[0]) {
      assert FirstReport(outs, 0);
    } else {
      FirstReportExists(outs[1..]);
      var i :| FirstReport(outs[1..], i);
      assert FirstReport(outs, i + 1) by {
        forall j | 0 <= j < i + 1 ensures outs[j].Obj? && !ReportsError(outs[j]) {
          if j > 0 { assert outs[j] == outs[1..][j - 1]; }
        }
      }
    }
  }
}
