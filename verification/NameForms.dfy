/** Which names pass where: the names internal/acl/acl.go takes for canonical, and that every name that is valid on the
    wire (internal/protocol/address.go) has a canonical form. */
module NameForms {
  import opened Bytes
  import opened Address
  import opened Policy
  import opened PolicyMeaning

  // ---- Words and dots ------------------------------------------------------------------------

  /** One or more words without dots. */
  ghost predicate Dotless(words: seq<Text>)
  {
    |words| > 0 && forall i :: 0 <= i < |words| ==> DOT !in words[i]
  }

  lemma NoDot(w: Text)
    requires DOT !in w
    ensures FirstDot(w) == |w| && Labels(w) == [w]
  {
  }

  lemma OneMoreWord(w: Text, words: seq<Text>, s: Text)
    requires DOT !in w && Labels(s) == words
    ensures Labels(w + [DOT] + s) == [w] + words
  {
    NoDot(w);
    LabelsJoinLast(w, s);
  }

  lemma DotlessTail(words: seq<Text>)
    requires Dotless(words) && |words| > 1
    ensures Dotless(words[1..]) && words == [words[0]] + words[1..]
  {
  }

  lemma {:induction false} LabelsOfJoined(words: seq<Text>)
    requires Dotless(words)
    ensures Labels(Joined(words)) == words
    decreases |words|
  {
    if |words| == 1 {
      NoDot(words[0]);
    } else {
      DotlessTail(words);
      var rest := words[1..];
      LabelsOfJoined(rest);
      OneMoreWord(words[0], rest, Joined(rest));
    }
  }

  /** `s` is written as words of a kind with dots between them. */
  ghost predicate Spelled(word: Text -> bool, words: seq<Text>, s: Text)
  {
    |words| > 0 && s == Joined(words) && forall i :: 0 <= i < |words| ==> word(words[i])
  }

  lemma LabelsSpell(word: Text -> bool, s: Text)
    requires forall part :: part in Labels(s) ==> word(part)
    ensures Spelled(word, Labels(s), s)
  {
    JoinedLabels(s);
  }

  lemma SpelledLabels(word: Text -> bool, words: seq<Text>, s: Text)
    requires Spelled(word, words, s) && forall w :: word(w) ==> DOT !in w
    ensures forall part :: part in Labels(s) ==> word(part)
  {
    LabelsOfJoined(words);
  }

  // ---- Canonical names -----------------------------------------------------------------------

  /** 1 to 63 letters in lower case, digits, hyphens and underscores. */
  predicate CanonicalWord(w: Text)
  {
    1 <= |w| <= 63 && forall i :: 0 <= i < |w| ==> 97 <= w[i] <= 122 || 48 <= w[i] <= 57 || w[i] == 45 || w[i] == 95
  }

  /** A name is canonical exactly if it has 1 to 253 bytes and is words of that kind with dots between. */
  lemma CanonicalExactly(s: Text)
    ensures ValidName(s) <==> 1 <= |s| <= 253 && exists words :: Spelled(CanonicalWord, words, s)
  {
    if ValidName(s) {
      forall part | part in Labels(s) ensures CanonicalWord(part) {
        var i :| 0 <= i < |Labels(s)| && Labels(s)[i] == part;
        assert ValidLabel(part);
      }
      LabelsSpell(CanonicalWord, s);
    }
    if words :| Spelled(CanonicalWord, words, s) {
      SpelledLabels(CanonicalWord, words, s);
      forall i | 0 <= i < |Labels(s)| ensures ValidLabel(Labels(s)[i]) { assert CanonicalWord(Labels(s)[i]); }
    }
  }

  // ---- Wire names ----------------------------------------------------------------------------

  /** 1 to 63 letters, digits, hyphens and underscores, without a hyphen at either end. */
  predicate WireWord(w: Text)
  {
    && 1 <= |w| <= 63 && w[0] != 45 && w[|w| - 1] != 45
    && forall i :: 0 <= i < |w| ==> 97 <= w[i] <= 122 || 65 <= w[i] <= 90 || 48 <= w[i] <= 57 || w[i] == 45 || w[i] == 95
  }

  lemma WireLabelExactly(w: Text)
    ensures WireLabel(w) <==> WireWord(w)
  {
    if WireLabel(w) {
      forall i | 0 <= i < |w| ensures HostByte(w[i]) { assert w[i] in w; }
    }
  }

  /** A name is valid on the wire exactly if, but for a final dot, it has 1 to 253 bytes and is such words with dots
      between. */
  lemma WireHostExactly(host: Text)
    ensures WireHost(host) <==>
            1 <= |TrimDot(host)| <= 253 && exists words :: Spelled(WireWord, words, TrimDot(host))
  {
    var s := TrimDot(host);
    if WireHost(host) {
      forall part | part in Labels(s) ensures WireWord(part) { WireLabelExactly(part); }
      LabelsSpell(WireWord, s);
    }
    if words :| Spelled(WireWord, words, s) {
      SpelledLabels(WireWord, words, s);
      forall part | part in Labels(s) ensures WireLabel(part) { WireLabelExactly(part); }
    }
  }

  function LowerByte(c: byte): byte
  {
    if 65 <= c <= 90 then c + 32 else c
  }

  function LowerAll(s: Text): (r: Text)
    ensures |r| == |s| && forall i :: 0 <= i < |s| ==> r[i] == LowerByte(s[i])
  {
    seq(|s|, i requires 0 <= i < |s| => LowerByte(s[i]))
  }

  ghost predicate HostText(s: Text)
  {
    forall i :: 0 <= i < |s| ==> HostByte(s[i]) || s[i] == DOT
  }

  /** What is assumed of `strings.ToLower` here: on host names it works letter by letter. */
  ghost predicate LowersNames(names: Names)
  {
    forall s :: HostText(s) ==> names.lower(s) == LowerAll(s)
  }

  lemma SameBytes(s: Text, t: Text)
    requires |s| == |t| && forall i :: 0 <= i < |s| ==> s[i] == t[i]
    ensures s == t
  {
  }

  lemma LowerSlice(s: Text, i: nat, j: nat)
    requires i <= j <= |s|
    ensures LowerAll(s)[i..j] == LowerAll(s[i..j])
  {
    SameBytes(LowerAll(s)[i..j], LowerAll(s[i..j]));
  }

  lemma FirstDotLower(s: Text)
    ensures FirstDot(LowerAll(s)) == FirstDot(s)
  {
    var t := LowerAll(s);
    var i, j := FirstDot(s), FirstDot(t);
    assert forall k :: 0 <= k < i ==> s[..i][k] == s[k];
    assert forall k :: 0 <= k < j ==> t[..j][k] == t[k];
  }

  lemma WireLabelLowers(part: Text)
    requires WireLabel(part)
    ensures ValidLabel(LowerAll(part)) && HostText(part)
  {
    var low := LowerAll(part);
    forall i | 0 <= i < |part| ensures HostByte(part[i]) && NameByte(low[i]) {
      assert part[i] in part;
    }
  }

  ghost predicate WireLabels(s: Text)
  {
    forall part :: part in Labels(s) ==> WireLabel(part)
  }

  lemma ConsValid(first: Text, rest: seq<Text>)
    requires ValidLabel(first) && ValidLabels(rest)
    ensures ValidLabels([first] + rest)
  {
  }

  lemma HostTextJoins(s: Text, i: nat)
    requires i < |s| && s[i] == DOT && HostText(s[..i]) && HostText(s[i + 1..])
    ensures HostText(s)
  {
    var first, rest := s[..i], s[i + 1..];
    forall k | 0 <= k < |s| ensures HostByte(s[k]) || s[k] == DOT {
      if k < i { assert s[k] == first[k]; }
      if k > i { assert s[k] == rest[k - i - 1]; }
    }
  }

  lemma LowerParts(s: Text, t: Text, i: nat)
    requires i < |s| && t == LowerAll(s)
    ensures t[..i] == LowerAll(s[..i]) && t[i + 1..] == LowerAll(s[i + 1..])
  {
    LowerSlice(s, 0, i);
    LowerSlice(s, i + 1, |s|);
  }

  lemma LabelsLowerAt(s: Text, t: Text, i: nat)
    requires i == FirstDot(s) < |s| && t == LowerAll(s)
    ensures Labels(t) == [LowerAll(s[..i])] + Labels(LowerAll(s[i + 1..]))
  {
    FirstDotLower(s);
    LowerParts(s, t, i);
    LabelsAt(t, t[..i], t[i + 1..]);
  }

  lemma FirstAndRest(s: Text, i: nat)
    requires i == FirstDot(s) < |s| && WireLabels(s)
    ensures WireLabel(s[..i]) && WireLabels(s[i + 1..])
  {
    LabelsAt(s, s[..i], s[i + 1..]);
    assert s[..i] in Labels(s);
  }

  lemma {:induction false} WireLabelsLower(s: Text)
    requires WireLabels(s)
    ensures HostText(s) && ValidLabels(Labels(LowerAll(s)))
    decreases |s|
  {
    var i := FirstDot(s);
    if i == |s| {
      assert s in Labels(s);
      WireLabelLowers(s);
      FirstDotLower(s);
    } else {
      FirstAndRest(s, i);
      WireLabelLowers(s[..i]);
      WireLabelsLower(s[i + 1..]);
      HostTextJoins(s, i);
      LabelsLowerAt(s, LowerAll(s), i);
      ConsValid(LowerAll(s[..i]), Labels(LowerAll(s[i + 1..])));
    }
  }

  /** Every destination that is a valid name on the wire has a canonical form, unless its port is zero: its own
      name in lower case without a final dot, or the address it is the text of. */
  lemma WireNamesNormalise(names: Names, a: Address)
    requires Sane(names) && LowersNames(names) && a.atyp == ATYP_DOMAIN && WireHost(a.host)
    ensures Normalized(names, a).Some? <==> a.port != 0
    ensures a.port != 0 && names.parse(LowerAll(TrimDot(a.host))).None? ==>
            Normalized(names, a) == Some(a.(host := LowerAll(TrimDot(a.host))))
  {
    WireLabelsLower(TrimDot(a.host));
    assert CanonicalName(names, a.host) == LowerAll(TrimDot(a.host));
  }
}
