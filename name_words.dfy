/** From dictionary indices to a setting's human-readable name: the
    dictionary words up to the terminating entry, joined by `_`. */
module NameWords {
  import opened Common
  import opened NameCodec

  /** The word dictionary: entry `i` is word `i`; a `None` entry (the NULL
      at the end of the generated table) ends a name. */
  type Dictionary = seq<Option<CString>>

  // ---------------------------------------------------------------------
  // From indices to words to the name
  // ---------------------------------------------------------------------

  /** Every index the decoder looks up, up to and including the one that
      ends the name, lies inside the dictionary. */
  predicate Resolvable(dict: Dictionary, idx: seq<nat>)
    decreases |idx|
  {
    idx == [] || (idx[0] < |dict| && (dict[idx[0]].Some? ==> Resolvable(dict, idx[1..])))
  }

  /** The words of a name: the dictionary entries of the indices, up to
      the first index whose entry is NULL. */
  function Words(dict: Dictionary, idx: seq<nat>): (ws: seq<CString>)
    requires Resolvable(dict, idx)
    ensures |ws| <= |idx|
    ensures forall k :: 0 <= k < |ws| ==> idx[k] < |dict| && dict[idx[k]] == Some(ws[k])
    ensures |ws| < |idx| ==> idx[|ws|] < |dict| && dict[idx[|ws|]] == None
    decreases |idx|
  {
    if idx == [] then []
    else match dict[idx[0]]
      case None => []
      case Some(w) => [w] + Words(dict, idx[1..])
  }

  /** `ws` is the word list of `idx` as soon as it agrees with the
      dictionary and stops exactly at the terminating entry. */
  lemma WordsUpTo(dict: Dictionary, idx: seq<nat>, ws: seq<CString>)
    requires Resolvable(dict, idx)
    requires |ws| <= |idx|
    requires forall k :: 0 <= k < |ws| ==> idx[k] < |dict| && dict[idx[k]] == Some(ws[k])
    requires |ws| < |idx| ==> idx[|ws|] < |dict| && dict[idx[|ws|]] == None
    ensures Words(dict, idx) == ws
  {
  }

  /** Words that agree with the dictionary on a prefix of the indices are a
      prefix of the name's words, and the next lookup is in range. */
  lemma WordsAgree(dict: Dictionary, idx: seq<nat>, ws: seq<CString>)
    requires Resolvable(dict, idx)
    requires |ws| <= |idx|
    requires forall k :: 0 <= k < |ws| ==> idx[k] < |dict| && dict[idx[k]] == Some(ws[k])
    ensures ws <= Words(dict, idx)
    ensures |ws| < |idx| ==> idx[|ws|] < |dict|
  {
    var r := Words(dict, idx);
    assert ws == r[..|ws|];
  }

  /** The words joined by underscores, as the C code builds it: a
      separator goes between the name so far, when it is not empty, and the
      next word. */
  function Join(ws: seq<CString>): (r: CString)
    decreases |ws|
  {
    if ws == [] then ""
    else
      var init := Join(ws[..|ws| - 1]);
      if init == "" then ws[|ws| - 1] else init + "_" + ws[|ws| - 1]
  }

  /** Appending a word appends a separator (unless the name was empty) and
      the word. */
  lemma JoinSnoc(ws: seq<CString>, w: CString)
    ensures Join(ws + [w]) == if Join(ws) == "" then w else Join(ws) + "_" + w
  {
    assert (ws + [w])[..|ws|] == ws;
  }

  /** A longer word list never gives a shorter name. */
  lemma {:induction false} JoinPrefixLength(a: seq<CString>, b: seq<CString>)
    requires a <= b
    ensures |Join(a)| <= |Join(b)|
    decreases |b|
  {
    if a != b {
      var b' := b[..|b| - 1];
      assert a <= b';
      JoinPrefixLength(a, b');
    }
  }

  /** The position of the last separator in `s`. */
  function LastSeparator(s: string): (i: nat)
    requires '_' in s
    ensures i < |s| && s[i] == '_'
    ensures forall j :: i < j < |s| ==> s[j] != '_'
    decreases |s|
  {
    if s[|s| - 1] == '_' then |s| - 1 else LastSeparator(s[..|s| - 1])
  }

  /** The inverse of `Join`: cut a name at every underscore. */
  function Split(s: string): seq<string>
    decreases |s|
  {
    if '_' !in s then [s]
    else var i := LastSeparator(s); Split(s[..i]) + [s[i + 1..]]
  }

  /** Joining non-empty words that contain no underscore can be undone:
      the name consists of the words separated by exactly one `_` each,
      with no separator at either end. */
  lemma {:induction false} SplitJoin(ws: seq<CString>)
    requires |ws| >= 1
    requires forall k :: 0 <= k < |ws| ==> |ws[k]| > 0 && '_' !in ws[k]
    ensures Split(Join(ws)) == ws
    decreases |ws|
  {
    if |ws| > 1 {
      var init, w := ws[..|ws| - 1], ws[|ws| - 1];
      NonEmptyJoin(init);
      var s := Join(ws);
      assert s == Join(init) + "_" + w;
      var i := |Join(init)|;
      assert s[i] == '_';
      assert forall j :: i < j < |s| ==> s[j] == w[j - i - 1];
      assert LastSeparator(s) == i;
      assert s[..i] == Join(init);
      assert s[i + 1..] == w;
      SplitJoin(init);
      assert ws == init + [w];
    } else {
      assert Join(ws) == ws[0];
    }
  }

  /** Non-empty words give a non-empty name. */
  lemma NonEmptyJoin(ws: seq<CString>)
    requires |ws| >= 1 && |ws[|ws| - 1]| > 0
    ensures Join(ws) != ""
  {
  }

  /** The human-readable name an encoded name stands for. */
  function DecodedName(enc: NameEncoding, dict: Dictionary, bytes: seq<byte>): CString
    requires Resolvable(dict, Indices(enc, bytes))
  {
    Join(Words(dict, Indices(enc, bytes)))
  }

  /** Encoding a name's indices followed by the terminating index, then any
      padding up to the byte limit, decodes back to the name. */
  lemma NameRoundTrip(enc: NameEncoding, dict: Dictionary, ids: seq<nat>, ws: seq<CString>,
                      sentinel: nat, padding: seq<byte>)
    requires |ids| == |ws|
    requires forall k :: 0 <= k < |ids| ==> ids[k] < |dict| && dict[ids[k]] == Some(ws[k])
    requires sentinel < |dict| && dict[sentinel] == None
    requires Encodable(enc, ids + [sentinel])
    ensures Resolvable(dict, Indices(enc, EncodeIndices(enc, ids + [sentinel]) + padding))
    ensures DecodedName(enc, dict, EncodeIndices(enc, ids + [sentinel]) + padding) == Join(ws)
  {
    var all := ids + [sentinel];
    var bytes := EncodeIndices(enc, all) + padding;
    EncodedIndicesPrefix(enc, all, padding);
    var idx := Indices(enc, bytes);
    assert |ids| < |idx| && idx[|ids|] == sentinel;
    assert forall k :: 0 <= k < |ids| ==> idx[k] == ids[k];
    ResolvableBySentinel(dict, idx, |ids|);
    WordsUpTo(dict, idx, ws);
  }

  /** The indices of an encoded index sequence followed by any bytes start
      with that sequence. */
  lemma EncodedIndicesPrefix(enc: NameEncoding, ids: seq<nat>, padding: seq<byte>)
    requires Encodable(enc, ids)
    ensures ids <= Indices(enc, EncodeIndices(enc, ids) + padding)
  {
    var e := EncodeIndices(enc, ids);
    DecodeEncodeIndices(enc, [], ids);
    assert [] + ids == ids;
    RunAppend(enc, Start, e, padding);
    RunExtends(enc, DecodeState(ids, 0, 0), padding);
  }

  /** Indices whose first `k` entries are words and whose entry `k` is the
      terminating one are resolvable, whatever follows. */
  lemma {:induction false} ResolvableBySentinel(dict: Dictionary, idx: seq<nat>, k: nat)
    requires k < |idx|
    requires forall j :: 0 <= j <= k ==> idx[j] < |dict|
    requires forall j :: 0 <= j < k ==> dict[idx[j]].Some?
    requires dict[idx[k]] == None
    ensures Resolvable(dict, idx)
    decreases k
  {
    if k > 0 {
      ResolvableBySentinel(dict, idx[1..], k - 1);
    }
  }

  /** A name whose first index is the terminating one decodes to "". */
  lemma SentinelFirstIsEmpty(enc: NameEncoding, dict: Dictionary, bytes: seq<byte>)
    requires Resolvable(dict, Indices(enc, bytes))
    requires |Indices(enc, bytes)| > 0 && dict[Indices(enc, bytes)[0]] == None
    ensures DecodedName(enc, dict, bytes) == ""
  {
  }

}
