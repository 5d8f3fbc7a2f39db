/** The C routines behind the name codec: `strcpy`, `strlen` and
    `setting_get_name`, which writes a decoded name into a caller's buffer. */
module NameBuffer {
  import opened Common
  import opened NameCodec
  import opened NameWords

  // ---------------------------------------------------------------------
  // The C routines: strcpy, strlen and setting_get_name
  // ---------------------------------------------------------------------

  /** C `strcpy(&buf[at], w)`: the word followed by its terminator. */
  method StrCpy(buf: array<char>, at: nat, w: CString)
    requires at + |w| < buf.Length
    modifies buf
    ensures forall j :: 0 <= j < |w| ==> buf[at + j] == w[j]
    ensures buf[at + |w|] == '\0'
    ensures forall j :: 0 <= j < buf.Length && !(at <= j <= at + |w|) ==> buf[j] == old(buf[j])
  {
    var k := 0;
    while k < |w|
      invariant 0 <= k <= |w|
      invariant forall j :: 0 <= j < k ==> buf[at + j] == w[j]
      invariant forall j :: 0 <= j < buf.Length && !(at <= j < at + k) ==> buf[j] == old(buf[j])
    {
      buf[at + k] := w[k];
      k := k + 1;
    }
    buf[at + |w|] := '\0';
  }

  /** C `strlen(buf)`: the position of the first terminator. */
  method StrLen(buf: array<char>) returns (len: nat)
    requires exists k :: 0 <= k < buf.Length && buf[k] == '\0'
    ensures len < buf.Length && buf[len] == '\0'
    ensures forall j :: 0 <= j < len ==> buf[j] != '\0'
  {
    len := 0;
    while buf[len] != '\0'
      invariant len < buf.Length
      invariant exists k :: len <= k < buf.Length && buf[k] == '\0'
      invariant forall j :: 0 <= j < len ==> buf[j] != '\0'
      decreases buf.Length - len
    {
      len := len + 1;
    }
  }

  /** The C string a character buffer holds: everything before its first
      terminator. */
  function CStr(s: seq<char>): (r: CString)
    ensures r <= s
    ensures |r| < |s| ==> s[|r|] == '\0'
    decreases |s|
  {
    if s == [] || s[0] == '\0' then [] else [s[0]] + CStr(s[1..])
  }

  /** A buffer holding `w` followed by a terminator holds the C string `w`. */
  lemma {:induction false} CStrOfTerminated(s: seq<char>, w: CString)
    requires |w| < |s| && s[..|w|] == w && s[|w|] == '\0'
    ensures CStr(s) == w
    decreases |w|
  {
    if w != [] {
      assert s[1..][..|w| - 1] == w[1..];
      CStrOfTerminated(s[1..], w[1..]);
      assert w == [w[0]] + w[1..];
    }
  }

  /** The body of the decoding loop of `setting_get_name` once a word is
      found: a separator unless the name so far is empty, then the word. */
  method AppendWord(buf: array<char>, bpos: nat, ghost ws: seq<CString>, w: CString,
                    ghost limit: nat, ghost orig: seq<char>)
    returns (bpos': nat)
    requires bpos == |Join(ws)|
    requires |Join(ws + [w])| <= limit < buf.Length
    requires Spells(buf, Join(ws))
    requires KeepsBeyond(buf, limit, orig)
    modifies buf
    ensures bpos' == |Join(ws + [w])|
    ensures Spells(buf, Join(ws + [w]))
    ensures KeepsBeyond(buf, limit, orig)
  {
    JoinSnoc(ws, w);
    bpos' := bpos;
    if bpos' > 0 {
      // not the first word: an underscore goes before it
      buf[bpos'] := '_';
      bpos' := bpos' + 1;
    }
    StrCpy(buf, bpos', w);
    bpos' := bpos' + |w|;
  }

  /** The part of the decoding loop of `setting_get_name` that handles a
      completed index `n`: a NULL word ends the name, any other word is
      appended to it. `ws` are the words written so far. */
  method EmitIndex(dict: Dictionary, n: nat, buf: array<char>, bpos: nat,
                   ghost idx: seq<nat>, ghost ws: seq<CString>, ghost orig: seq<char>)
    returns (stop: bool, bpos': nat, ghost ws': seq<CString>)
    requires Resolvable(dict, idx)
    requires |ws| < |idx| && idx[|ws|] == n
    requires forall k :: 0 <= k < |ws| ==> idx[k] < |dict| && dict[idx[k]] == Some(ws[k])
    requires |Join(Words(dict, idx))| < buf.Length
    requires bpos == |Join(ws)|
    requires Spells(buf, Join(ws))
    requires KeepsBeyond(buf, |Join(Words(dict, idx))|, orig)
    modifies buf
    ensures n < |dict| && (stop <==> dict[n] == None)
    ensures stop ==> Words(dict, idx) == ws && bpos' == bpos && ws' == ws
    ensures !stop ==> ws' == ws + [dict[n].value]
    ensures bpos' == |Join(ws')| <= |Join(Words(dict, idx))|
    ensures Spells(buf, Join(ws'))
    ensures KeepsBeyond(buf, |Join(Words(dict, idx))|, orig)
  {
    WordsAgree(dict, idx, ws);
    var word := dict[n];
    if word.None? {
      WordsUpTo(dict, idx, ws);
      return true, bpos, ws;
    }
    ws' := ws + [word.value];
    forall k | 0 <= k < |ws'|
      ensures idx[k] < |dict| && dict[idx[k]] == Some(ws'[k])
    {
      if k < |ws| {
        assert ws'[k] == ws[k];
      }
    }
    WordsAgree(dict, idx, ws');
    ghost var limit := |Join(Words(dict, idx))|;
    JoinPrefixLength(ws', Words(dict, idx));
    bpos' := AppendWord(buf, bpos, ws, word.value, limit, orig);
    stop := false;
  }

  /** The part of the decoding loop of `setting_get_name` that reads one
      byte `b`: in the byte-indexed encoding it is the next index; in the
      varint encoding it either extends the partial index `n` or completes
      it. `st` is the decoder state before the byte. */
  method DecodeByte(enc: NameEncoding, b: byte, n: u16, shift: nat, ghost st: DecodeState)
    returns (complete: bool, n': u16, shift': nat, ghost st': DecodeState)
    requires enc == Varint ==> n == st.acc && shift == st.shift
    ensures st' == Step(enc, st, b)
    ensures complete ==> st'.done == st.done + [n']
    ensures !complete ==> st'.done == st.done && n' == st'.acc && shift' == st'.shift
    ensures !complete ==> enc == Varint
    ensures complete && enc == Varint ==> st'.acc == 0 && st'.shift == 0
  {
    st' := Step(enc, st, b);
    if enc == ByteIndexed {
      return true, b, shift, st';
    }
    if b >= 0x80 {
      // continuation byte: add its low seven bits, index not complete
      return false, AddGroup(n, b - 0x80, shift), shift + 7, st';
    }
    // last byte of the varint: the index is complete
    return true, AddGroup(n, b, shift), shift, st';
  }

  /** A sequence that agrees with `t` on its first `|t|` elements starts
      with `t`. */
  lemma PrefixFromElements(s: seq<char>, t: seq<char>)
    requires |t| <= |s|
    requires forall j :: 0 <= j < |t| ==> s[j] == t[j]
    ensures s[..|t|] == t
  {
  }

  /** What the decoding loop of `setting_get_name` knows after reading the
      first `ii` bytes: the decoder state `st` they produce, and the words
      `ws` of the indices completed so far, all of them found. */
  ghost predicate DecodedSoFar(enc: NameEncoding, dict: Dictionary, encodedName: seq<byte>,
                               ii: nat, st: DecodeState, ws: seq<CString>)
  {
    ii <= |encodedName|
    && st == Run(enc, Start, encodedName[..ii])
    && st.done <= Indices(enc, encodedName)
    && |ws| == |st.done|
    && forall k :: 0 <= k < |ws| ==> st.done[k] < |dict| && dict[st.done[k]] == Some(ws[k])
  }

  /** The decoder state after one more byte is the fold over one more
      byte, and its indices are still a prefix of the name's indices. */
  lemma NextStateInIndices(enc: NameEncoding, encodedName: seq<byte>, ii: nat, st: DecodeState)
    requires ii < |encodedName|
    requires st == Run(enc, Start, encodedName[..ii])
    ensures Step(enc, st, encodedName[ii]) == Run(enc, Start, encodedName[..ii + 1])
    ensures Step(enc, st, encodedName[ii]).done <= Indices(enc, encodedName)
  {
    assert encodedName[..ii + 1][..ii] == encodedName[..ii];
    IndicesOfPrefix(enc, encodedName, ii + 1);
  }

  /** A byte that completes no index keeps the loop state consistent. */
  lemma DecodedNextPartial(enc: NameEncoding, dict: Dictionary, encodedName: seq<byte>, ii: nat,
                           st: DecodeState, ws: seq<CString>)
    requires ii < |encodedName|
    requires DecodedSoFar(enc, dict, encodedName, ii, st, ws)
    requires Step(enc, st, encodedName[ii]).done == st.done
    ensures DecodedSoFar(enc, dict, encodedName, ii + 1, Step(enc, st, encodedName[ii]), ws)
  {
    NextStateInIndices(enc, encodedName, ii, st);
  }

  /** A byte that completes index `n`, whose word is `w`, keeps the loop
      state consistent once `w` is added to the words. */
  lemma DecodedNextWord(enc: NameEncoding, dict: Dictionary, encodedName: seq<byte>, ii: nat,
                        st: DecodeState, ws: seq<CString>, n: nat, w: CString)
    requires ii < |encodedName|
    requires DecodedSoFar(enc, dict, encodedName, ii, st, ws)
    requires Step(enc, st, encodedName[ii]).done == st.done + [n]
    requires n < |dict| && dict[n] == Some(w)
    ensures DecodedSoFar(enc, dict, encodedName, ii + 1, Step(enc, st, encodedName[ii]), ws + [w])
  {
    NextStateInIndices(enc, encodedName, ii, st);
  }

  /** Once every byte is read without meeting the end of the name, the
      words found so far are all of its words. */
  lemma AllBytesDecoded(enc: NameEncoding, dict: Dictionary, encodedName: seq<byte>,
                        st: DecodeState, ws: seq<CString>)
    requires Resolvable(dict, Indices(enc, encodedName))
    requires DecodedSoFar(enc, dict, encodedName, |encodedName|, st, ws)
    ensures Words(dict, Indices(enc, encodedName)) == ws
  {
    assert encodedName[..|encodedName|] == encodedName;
    WordsUpTo(dict, Indices(enc, encodedName), ws);
  }

  /** One iteration of the decoding loop of `setting_get_name`: reads byte
      `ii`, and when it completes an index either finds the end of the name
      (`stop`) or appends the word it names to `buf`. */
  method ConsumeByte(enc: NameEncoding, dict: Dictionary, encodedName: seq<byte>, ii: nat,
                     n: u16, shift: nat, buf: array<char>, bpos: nat,
                     ghost st: DecodeState, ghost ws: seq<CString>, ghost orig: seq<char>)
    returns (stop: bool, n': u16, shift': nat, bpos': nat,
             ghost st': DecodeState, ghost ws': seq<CString>)
    requires ii < |encodedName|
    requires Resolvable(dict, Indices(enc, encodedName))
    requires |DecodedName(enc, dict, encodedName)| < buf.Length
    requires DecodedSoFar(enc, dict, encodedName, ii, st, ws)
    requires enc == Varint ==> n == st.acc && shift == st.shift
    requires bpos == |Join(ws)| <= |DecodedName(enc, dict, encodedName)|
    requires Spells(buf, Join(ws))
    requires KeepsBeyond(buf, |DecodedName(enc, dict, encodedName)|, orig)
    modifies buf
    ensures stop ==> Words(dict, Indices(enc, encodedName)) == ws' && bpos' == bpos
    ensures !stop ==> DecodedSoFar(enc, dict, encodedName, ii + 1, st', ws')
    ensures !stop ==> (enc == Varint ==> n' == st'.acc && shift' == st'.shift)
    ensures bpos' == |Join(ws')| <= |DecodedName(enc, dict, encodedName)|
    ensures Spells(buf, Join(ws'))
    ensures KeepsBeyond(buf, |DecodedName(enc, dict, encodedName)|, orig)
  {
    var complete;
    complete, n', shift', st' := DecodeByte(enc, encodedName[ii], n, shift, st);
    if !complete {
      DecodedNextPartial(enc, dict, encodedName, ii, st, ws);
      return false, n', shift', bpos, st', ws;
    }
    stop, bpos', ws' := EmitWord(enc, dict, encodedName, ii, n', buf, bpos, st, st', ws, orig);
    if enc == Varint {
      // the next index starts from an empty accumulator
      shift' := 0;
      n' := 0;
    }
  }

  /** The rest of an iteration of the decoding loop once byte `ii` has
      completed index `n`. */
  method EmitWord(enc: NameEncoding, dict: Dictionary, encodedName: seq<byte>, ii: nat,
                  n: nat, buf: array<char>, bpos: nat, ghost st: DecodeState,
                  ghost st': DecodeState, ghost ws: seq<CString>, ghost orig: seq<char>)
    returns (stop: bool, bpos': nat, ghost ws': seq<CString>)
    requires ii < |encodedName|
    requires Resolvable(dict, Indices(enc, encodedName))
    requires |DecodedName(enc, dict, encodedName)| < buf.Length
    requires DecodedSoFar(enc, dict, encodedName, ii, st, ws)
    requires st' == Step(enc, st, encodedName[ii]) && st'.done == st.done + [n]
    requires bpos == |Join(ws)| <= |DecodedName(enc, dict, encodedName)|
    requires Spells(buf, Join(ws))
    requires KeepsBeyond(buf, |DecodedName(enc, dict, encodedName)|, orig)
    modifies buf
    ensures stop ==> Words(dict, Indices(enc, encodedName)) == ws' && bpos' == bpos
    ensures !stop ==> DecodedSoFar(enc, dict, encodedName, ii + 1, st', ws')
    ensures bpos' == |Join(ws')| <= |DecodedName(enc, dict, encodedName)|
    ensures Spells(buf, Join(ws'))
    ensures KeepsBeyond(buf, |DecodedName(enc, dict, encodedName)|, orig)
  {
    ghost var idx := Indices(enc, encodedName);
    NextStateInIndices(enc, encodedName, ii, st);
    stop, bpos', ws' := EmitIndex(dict, n, buf, bpos, idx, ws, orig);
    if !stop {
      DecodedNextWord(enc, dict, encodedName, ii, st, ws, n, dict[n].value);
    }
  }

  /** `buf` starts with `s`. */
  ghost predicate Spells(buf: array<char>, s: seq<char>)
    reads buf
  {
    |s| <= buf.Length && forall j :: 0 <= j < |s| ==> buf[j] == s[j]
  }

  /** `buf` still holds `orig` at every position after `from`. */
  ghost predicate KeepsBeyond(buf: array<char>, from: nat, orig: seq<char>)
    reads buf
  {
    |orig| == buf.Length && forall k :: from < k < buf.Length ==> buf[k] == orig[k]
  }

  /** The decoding loop of `setting_get_name`: writes the words of the
      name, with their separators, at the start of `buf` and returns the
      position after them. */
  method WriteWords(enc: NameEncoding, dict: Dictionary, encodedName: seq<byte>, buf: array<char>)
    returns (bpos: nat)
    requires Resolvable(dict, Indices(enc, encodedName))
    requires |DecodedName(enc, dict, encodedName)| < buf.Length
    modifies buf
    ensures bpos == |DecodedName(enc, dict, encodedName)|
    ensures Spells(buf, DecodedName(enc, dict, encodedName))
    ensures KeepsBeyond(buf, bpos, old(buf[..]))
  {
    ghost var name := DecodedName(enc, dict, encodedName);
    ghost var orig := buf[..];
    bpos := 0;
    var n: u16 := 0;
    var shift: nat := 0;
    ghost var st := Start;
    ghost var ws: seq<CString> := [];
    var ii := 0;
    assert encodedName[..0] == [];
    while ii < |encodedName|
      invariant DecodedSoFar(enc, dict, encodedName, ii, st, ws)
      invariant enc == Varint ==> n == st.acc && shift == st.shift
      invariant bpos == |Join(ws)| <= |name|
      invariant Spells(buf, Join(ws))
      invariant KeepsBeyond(buf, |name|, orig)
    {
      var stop;
      stop, n, shift, bpos, st, ws := ConsumeByte(enc, dict, encodedName, ii, n, shift, buf, bpos, st, ws, orig);
      if stop {
        // the NULL entry ends the name
        return;
      }
      ii := ii + 1;
    }
    AllBytesDecoded(enc, dict, encodedName, st, ws);
  }

  /** `setting_get_name`: writes the decoded name, NUL-terminated, at the
      start of `buf`; `|encodedName|` is SETTING_ENCODED_NAME_MAX_BYTES.
      The byte counter and the write position are `uint8_t`, so the limit
      and the name length stay below 256. */
  method GetName(enc: NameEncoding, dict: Dictionary, encodedName: seq<byte>, buf: array<char>)
    requires |encodedName| < 0x100
    requires Resolvable(dict, Indices(enc, encodedName))
    requires |DecodedName(enc, dict, encodedName)| < buf.Length
    requires |DecodedName(enc, dict, encodedName)| < 0x100
    modifies buf
    ensures var name := DecodedName(enc, dict, encodedName);
      buf[..|name|] == name && buf[|name|] == '\0'
    ensures var name := DecodedName(enc, dict, encodedName);
      forall k :: |name| < k < buf.Length ==> buf[k] == old(buf[k])
  {
    ghost var name := DecodedName(enc, dict, encodedName);
    var bpos := WriteWords(enc, dict, encodedName, buf);
    buf[bpos] := '\0';
    PrefixFromElements(buf[..], name);
  }
}
