/**
 * The JSON Patch the deployer sends to label a node: one "add" operation
 * (section 4.1 of RFC 6902) whose path is the JSON Pointer (RFC 6901)
 * `/metadata/labels/<key>`, built without escaping the key.
 */
module JsonPatch {
  import opened Wrappers

  datatype PatchOp = PatchOp(op: string, path: string, value: string)

  /** The path the deployer writes for label `key`: the key is pasted in as it is. */
  function LabelPath(key: string): string {
    "/metadata/labels/" + key
  }

  /** The body of `patch_node` in `label_node`. */
  function LabelPatch(key: string, value: string): seq<PatchOp> {
    [PatchOp("add", LabelPath(key), value)]
  }

  /** A key the pointer syntax leaves alone: no '/' and no '~'. */
  predicate Plain(k: string) {
    forall i :: 0 <= i < |k| ==> k[i] != '/' && k[i] != '~'
  }

  /** The pieces of `s` between the '/' separators (section 3 of RFC 6901). */
  function Split(s: string): (r: seq<string>)
    ensures |r| >= 1
    decreases |s|
  {
    if s == [] then [[]]
    else
      var rest := Split(s[1..]);
      if s[0] == '/' then [[]] + rest else [[s[0]] + rest[0]] + rest[1..]
  }

  /** Section 4 of RFC 6901: "~1" stands for '/', "~0" for '~'; any other '~' is malformed. */
  function Unescape(t: string): Option<string>
    decreases |t|
  {
    if t == [] then Some([])
    else if t[0] == '~' then
      if |t| >= 2 && (t[1] == '0' || t[1] == '1') then
        match Unescape(t[2..])
        case None => None
        case Some(u) => Some([if t[1] == '0' then '~' else '/'] + u)
      else None
    else
      match Unescape(t[1..])
      case None => None
      case Some(u) => Some([t[0]] + u)
  }

  /** The escaping a writer of pointers owes a token: '~' first becomes "~0", '/' becomes "~1". */
  function Escape(k: string): string
    decreases |k|
  {
    if k == [] then []
    else if k[0] == '~' then "~0" + Escape(k[1..])
    else if k[0] == '/' then "~1" + Escape(k[1..])
    else [k[0]] + Escape(k[1..])
  }

  function UnescapeAll(ts: seq<string>): Option<seq<string>>
    decreases |ts|
  {
    if ts == [] then Some([])
    else
      match (Unescape(ts[0]), UnescapeAll(ts[1..]))
      case (Some(u), Some(us)) => Some([u] + us)
      case _ => None
  }

  /** The reference tokens a pointer stands for, or None when it is malformed. */
  function Decode(p: string): Option<seq<string>> {
    if p == [] then Some([])
    else if p[0] != '/' then None
    else UnescapeAll(Split(p[1..]))
  }

  /** Unescaping undoes escaping, for every key. */
  lemma {:induction false} UnescapeEscape(k: string)
    ensures Unescape(Escape(k)) == Some(k)
    decreases |k|
  {
    if k != [] {
      UnescapeEscape(k[1..]);
      var e := Escape(k);
      if k[0] == '~' {
        assert e[2..] == Escape(k[1..]);
      } else if k[0] == '/' {
        assert e[2..] == Escape(k[1..]);
      } else {
        assert e[1..] == Escape(k[1..]);
      }
      assert k == [k[0]] + k[1..];
    }
  }

  /** Escaping is the identity on plain keys, so pasting such a key unescaped is harmless. */
  lemma {:induction false} EscapePlain(k: string)
    requires Plain(k)
    ensures Escape(k) == k
    decreases |k|
  {
    if k != [] {
      EscapePlain(k[1..]);
      assert k == [k[0]] + k[1..];
    }
  }

  /** `k` has no separator, so it is a single reference token. */
  predicate Unsplit(k: string) {
    forall i :: 0 <= i < |k| ==> k[i] != '/'
  }

  lemma {:induction false} EscapeUnsplit(k: string)
    ensures Unsplit(Escape(k))
    decreases |k|
  {
    if k != [] {
      EscapeUnsplit(k[1..]);
      var e := Escape(k);
      if k[0] == '~' || k[0] == '/' {
        assert e == [e[0], e[1]] + Escape(k[1..]) && e[0] == '~';
      } else {
        assert e == [k[0]] + Escape(k[1..]);
      }
    }
  }

  lemma {:induction false} SplitPlain(k: string)
    requires Unsplit(k)
    ensures Split(k) == [k]
    decreases |k|
  {
    if k != [] {
      SplitPlain(k[1..]);
      assert k == [k[0]] + k[1..];
    }
  }

  lemma {:induction false} SplitSegment(a: string, b: string)
    requires Plain(a)
    ensures Split(a + "/" + b) == [a] + Split(b)
    decreases |a|
  {
    if a == [] {
      assert (a + "/" + b)[1..] == b;
    } else {
      assert (a + "/" + b)[1..] == a[1..] + "/" + b;
      SplitSegment(a[1..], b);
      assert a == [a[0]] + a[1..];
    }
  }

  lemma {:induction false} UnescapePlain(k: string)
    requires Plain(k)
    ensures Unescape(k) == Some(k)
    decreases |k|
  {
    if k != [] {
      UnescapePlain(k[1..]);
      assert k == [k[0]] + k[1..];
    }
  }

  lemma {:induction false} UnescapeAllPlain(ts: seq<string>)
    requires forall i :: 0 <= i < |ts| ==> Plain(ts[i])
    ensures UnescapeAll(ts) == Some(ts)
    decreases |ts|
  {
    if ts != [] {
      UnescapePlain(ts[0]);
      UnescapeAllPlain(ts[1..]);
      assert ts == [ts[0]] + ts[1..];
    }
  }

  /** For a plain key, the unescaped label path addresses exactly `metadata`, `labels`, `key`. */
  lemma DecodeLabelPath(key: string)
    requires Plain(key)
    ensures Decode(LabelPath(key)) == Some(["metadata", "labels", key])
  {
    var p := LabelPath(key);
    var ts := ["metadata", "labels", key];
    assert p[1..] == "metadata" + "/" + ("labels" + "/" + key);
    SplitSegment("metadata", "labels" + "/" + key);
    SplitSegment("labels", key);
    SplitPlain(key);
    assert Split(p[1..]) == ts;
    assert Plain(ts[0]) && Plain(ts[1]);
    UnescapeAllPlain(ts);
  }

  /** The path a pointer writer owes label `key`: the key escaped as section 4 of RFC 6901 requires. */
  function EscapedLabelPath(key: string): string {
    "/metadata/labels/" + Escape(key)
  }

  /** The escaped path names label `key`, whatever characters the key holds. */
  lemma DecodeEscapedLabelPath(key: string)
    ensures Decode(EscapedLabelPath(key)) == Some(["metadata", "labels", key])
  {
    var p := EscapedLabelPath(key);
    var e := Escape(key);
    assert p[1..] == "metadata" + "/" + ("labels" + "/" + e);
    SplitSegment("metadata", "labels" + "/" + e);
    SplitSegment("labels", e);
    EscapeUnsplit(key);
    SplitPlain(e);
    assert Split(p[1..]) == ["metadata", "labels", e];
    UnescapePlain("metadata");
    UnescapePlain("labels");
    UnescapeEscape(key);
    UnescapeAllThree("metadata", "labels", e, key);
  }

  lemma UnescapeAllThree(a: string, b: string, c: string, c': string)
    requires Unescape(a) == Some(a) && Unescape(b) == Some(b) && Unescape(c) == Some(c')
    ensures UnescapeAll([a, b, c]) == Some([a, b, c'])
  {
    var none: seq<string> := [];
    assert UnescapeAll(none) == Some(none);
    UnescapeAllCons(c, none, c', none);
    assert [c] + none == [c] && [c'] + none == [c'];
    UnescapeAllCons(b, [c], b, [c']);
    assert [b] + [c] == [b, c] && [b] + [c'] == [b, c'];
    UnescapeAllCons(a, [b, c], a, [b, c']);
    assert [a] + [b, c] == [a, b, c] && [a] + [b, c'] == [a, b, c'];
  }

  lemma UnescapeAllCons(t: string, ts: seq<string>, u: string, us: seq<string>)
    requires Unescape(t) == Some(u) && UnescapeAll(ts) == Some(us)
    ensures UnescapeAll([t] + ts) == Some([u] + us)
  {
    var all := [t] + ts;
    assert all[0] == t && all[1..] == ts;
  }

  /**
   * Leaving out the escaping is harmless exactly for the keys that need none: for
   * a plain key the deployer's path is the escaped one.
   */
  lemma LabelPathPlain(key: string)
    requires Plain(key)
    ensures LabelPath(key) == EscapedLabelPath(key)
  {
    EscapePlain(key);
  }

  /**
   * A key holding '/' (as `quobyte.com/registry` would) is not escaped, so its path
   * reaches one level below the label map instead of naming a label.
   */
  lemma SlashedKeyOverreaches(a: string, b: string)
    requires Plain(a) && Plain(b)
    ensures Decode(LabelPath(a + "/" + b)) == Some(["metadata", "labels", a, b])
  {
    var p := LabelPath(a + "/" + b);
    var ts := ["metadata", "labels", a, b];
    assert p[1..] == "metadata" + "/" + ("labels" + "/" + (a + "/" + b));
    SplitSegment("metadata", "labels" + "/" + (a + "/" + b));
    SplitSegment("labels", a + "/" + b);
    SplitSegment(a, b);
    SplitPlain(b);
    assert Split(p[1..]) == ts;
    assert Plain(ts[0]) && Plain(ts[1]);
    UnescapeAllPlain(ts);
  }

  /**
   * What a patch does to the labels of the node it is applied to: an "add" whose
   * pointer names a label sets that label (replacing an existing value, as section
   * 4.1 of RFC 6902 says for object members); the model keeps to the label map, so
   * operations aimed elsewhere leave it as it is.
   */
  function ApplyToLabels(labels: map<string, string>, ops: seq<PatchOp>): map<string, string>
    decreases |ops|
  {
    if ops == [] then labels
    else
      var op := ops[0];
      var next :=
        match Decode(op.path)
        case Some(ts) =>
          if op.op == "add" && |ts| == 3 && ts[0] == "metadata" && ts[1] == "labels"
          then labels[ts[2] := op.value] else labels
        case None => labels;
      ApplyToLabels(next, ops[1..])
  }

  /** The deployer's patch sets exactly label `key` to `value` and leaves every other label alone. */
  lemma LabelPatchSets(labels: map<string, string>, key: string, value: string)
    requires Plain(key)
    ensures ApplyToLabels(labels, LabelPatch(key, value)) == labels[key := value]
  {
    DecodeLabelPath(key);
  }
}
