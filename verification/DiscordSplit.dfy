/** Splitting a reply into Discord messages: DiscordChannel._split_text (backend/app/channels/discord.py). */
module DiscordSplit {
  const MAX_MESSAGE_LEN: nat := 2000

  // text.rfind("\n", 0, limit): the last newline before limit, or -1.
  function LastNewline(text: string, limit: nat): (i: int)
    requires limit <= |text|
    ensures -1 <= i < limit
    ensures i >= 0 ==> text[i] == '\n'
    ensures forall j :: i < j < limit ==> text[j] != '\n'
  {
    if limit == 0 then -1
    else if text[limit - 1] == '\n' then limit - 1
    else LastNewline(text, limit - 1)
  }

  function StripNewlines(text: string): string {
    if text != [] && text[0] == '\n' then StripNewlines(text[1..]) else text
  }

  function Cut(text: string): (cut: nat)
    requires |text| > MAX_MESSAGE_LEN
    ensures 0 < cut <= MAX_MESSAGE_LEN
  {
    var i := LastNewline(text, MAX_MESSAGE_LEN);
    if i <= 0 then MAX_MESSAGE_LEN else i
  }

  lemma {:induction false} StripShortens(text: string)
    ensures |StripNewlines(text)| <= |text|
    ensures text == Newlines(|text| - |StripNewlines(text)|) + StripNewlines(text)
  {
    if text != [] && text[0] == '\n' {
      var rest := StripNewlines(text[1..]);
      StripShortens(text[1..]);
      assert text == "\n" + text[1..];
      assert Newlines(|text| - |rest|) == "\n" + Newlines(|text[1..]| - |rest|);
    }
  }

  function Rest(text: string): (rest: string)
    requires |text| > MAX_MESSAGE_LEN
    ensures |rest| < |text|
  {
    StripShortens(text[Cut(text)..]);
    StripNewlines(text[Cut(text)..])
  }

  function Pieces(text: string): seq<string>
    decreases |text|
  {
    if |text| > MAX_MESSAGE_LEN then [text[..Cut(text)]] + Pieces(Rest(text))
    else if text != "" then [text]
    else []
  }

  function Split(text: string): seq<string> {
    if text == "" then [""] else Pieces(text)
  }

  method SplitText(text: string) returns (chunks: seq<string>)
    ensures chunks == Split(text)
  {
    if text == "" {
      return [""];
    }
    chunks := [];
    var remaining := text;
    while |remaining| > MAX_MESSAGE_LEN
      invariant chunks + Pieces(remaining) == Pieces(text)
      decreases |remaining|
    {
      var splitAt: int := LastNewline(remaining, MAX_MESSAGE_LEN);
      if splitAt <= 0 {
        splitAt := MAX_MESSAGE_LEN;
      }
      ghost var before := remaining;
      chunks := chunks + [remaining[..splitAt]];
      remaining := StripNewlines(remaining[splitAt..]);
      assert remaining == Rest(before) && Pieces(before) == [before[..splitAt]] + Pieces(remaining);
    }
    if remaining != "" {
      chunks := chunks + [remaining];
    }
  }

  // ---- Nothing but newlines is lost ----------------------------------------------------

  function Newlines(n: nat): string {
    if n == 0 then "" else "\n" + Newlines(n - 1)
  }

  // The chunks with gaps[i] newlines after the i-th.
  function Interleave(chunks: seq<string>, gaps: seq<nat>): string
    requires |chunks| == |gaps|
  {
    if chunks == [] then "" else chunks[0] + Newlines(gaps[0]) + Interleave(chunks[1..], gaps[1..])
  }

  lemma InterleaveCons(chunk: string, chunks: seq<string>, gap: nat, gaps: seq<nat>)
    requires |chunks| == |gaps|
    ensures Interleave([chunk] + chunks, [gap] + gaps) == chunk + Newlines(gap) + Interleave(chunks, gaps)
  {
  }

  lemma PiecesStep(text: string)
    ensures Pieces(text) == if |text| > MAX_MESSAGE_LEN then [text[..Cut(text)]] + Pieces(Rest(text))
                            else if text != "" then [text]
                            else []
  {
  }

  // A text is what is cut off, some newlines, and the rest.
  lemma CutAndRest(text: string)
    requires |text| > MAX_MESSAGE_LEN
    ensures var cut, rest := Cut(text), Rest(text);
            cut + |rest| <= |text| && text == text[..cut] + (Newlines(|text| - cut - |rest|) + rest)
  {
    hide Cut, Newlines, StripNewlines;
    StripShortens(text[Cut(text)..]);
  }

  lemma OnePiece(text: string)
    ensures if text == "" then Interleave([], []) == text else Interleave([text], [0]) == text
  {
    if text != "" {
      InterleaveCons(text, [], 0, []);
      assert [text] + [] == [text] && [0] + [] == [0];
    }
  }

  lemma {:induction false} PiecesReassemble(text: string) returns (gaps: seq<nat>)
    ensures |gaps| == |Pieces(text)| && Interleave(Pieces(text), gaps) == text
    decreases |text|
  {
    hide LastNewline, Cut, Rest, Interleave, Newlines, StripNewlines, Pieces;
    PiecesStep(text);
    if |text| > MAX_MESSAGE_LEN {
      var cut, rest := Cut(text), Rest(text);
      CutAndRest(text);
      var gap := |text| - cut - |rest|;
      var more := PiecesReassemble(rest);
      gaps := [gap] + more;
      InterleaveCons(text[..cut], Pieces(rest), gap, more);
      assert text[..cut] + Newlines(gap) + rest == text[..cut] + (Newlines(gap) + rest);
    } else {
      gaps := if text == "" then [] else [0];
      OnePiece(text);
    }
  }

  // The text is its chunks with only newlines dropped between or after them.
  lemma OnlyNewlinesDropped(text: string)
    ensures exists gaps: seq<nat> :: |gaps| == |Split(text)| && Interleave(Split(text), gaps) == text
  {
    if text == "" {
      assert Interleave([""], [0]) == "" + Newlines(0) + Interleave([""][1..], [0][1..]);
    } else {
      var gaps := PiecesReassemble(text);
      assert |gaps| == |Split(text)| && Interleave(Split(text), gaps) == text;
    }
  }

  // ---- Sizes ---------------------------------------------------------------------------

  // Every chunk fits a message, and none is empty unless the text is.
  lemma {:induction false} ChunksFit(text: string)
    ensures forall c :: c in Split(text) ==> |c| <= MAX_MESSAGE_LEN && (c == "" ==> text == "")
    decreases |text|
  {
    if |text| > MAX_MESSAGE_LEN {
      var rest := Rest(text);
      assert Split(text) == [text[..Cut(text)]] + Pieces(rest);
      if rest != "" {
        ChunksFit(rest);
        assert Split(rest) == Pieces(rest);
      } else {
        assert Pieces(rest) == [];
      }
    }
  }

  // What follows a chunk cut at a newline reaches at least to where the chunk could have reached.
  lemma NextPieceLong(text: string)
    requires |text| > MAX_MESSAGE_LEN && Pieces(Rest(text)) != []
    ensures Cut(text) + |Pieces(Rest(text))[0]| >= MAX_MESSAGE_LEN - 1
  {
    var cut, rest := Cut(text), Rest(text);
    if cut < MAX_MESSAGE_LEN - 1 {
      assert text[cut] == '\n' && text[cut + 1] != '\n';
      var after := text[cut..];
      assert after[0] == '\n' && after[1..] == text[cut + 1..];
      assert StripNewlines(after[1..]) == after[1..];
      assert rest == text[cut + 1..];
      assert forall j :: 0 <= j < MAX_MESSAGE_LEN - 1 - cut ==> rest[j] == text[cut + 1 + j];
    }
  }

  // Any two consecutive chunks hold at least 1999 characters together.
  lemma {:induction false} PairsLong(text: string, i: nat)
    requires i + 1 < |Pieces(text)|
    ensures |Pieces(text)[i]| + |Pieces(text)[i + 1]| >= MAX_MESSAGE_LEN - 1
    decreases |text|
  {
    if i == 0 {
      NextPieceLong(text);
    } else {
      PairsLong(Rest(text), i - 1);
    }
  }

  function Total(chunks: seq<string>): nat {
    if chunks == [] then 0 else |chunks[0]| + Total(chunks[1..])
  }

  lemma {:induction false} InterleaveLength(chunks: seq<string>, gaps: seq<nat>)
    requires |chunks| == |gaps|
    ensures Total(chunks) <= |Interleave(chunks, gaps)|
  {
    if chunks != [] {
      InterleaveLength(chunks[1..], gaps[1..]);
    }
  }

  lemma {:induction false} PairTotal(chunks: seq<string>)
    requires forall i :: 0 <= i < |chunks| - 1 ==> |chunks[i]| + |chunks[i + 1]| >= MAX_MESSAGE_LEN - 1
    ensures (MAX_MESSAGE_LEN - 1) * (|chunks| / 2) <= Total(chunks)
  {
    if |chunks| >= 2 {
      assert |chunks[0]| + |chunks[0 + 1]| >= MAX_MESSAGE_LEN - 1;
      var rest := chunks[2..];
      forall i | 0 <= i < |rest| - 1 ensures |rest[i]| + |rest[i + 1]| >= MAX_MESSAGE_LEN - 1 {
        assert |chunks[i + 2]| + |chunks[i + 2 + 1]| >= MAX_MESSAGE_LEN - 1;
      }
      PairTotal(rest);
      assert chunks[1..][1..] == rest;
    }
  }

  lemma Halves(n: nat, total: nat)
    requires (MAX_MESSAGE_LEN - 1) * (n / 2) <= total
    ensures n <= 2 * (total / (MAX_MESSAGE_LEN - 1)) + 1
  {
    assert n / 2 <= total / (MAX_MESSAGE_LEN - 1);
  }

  // n characters need at most 2 * floor(n / 1999) + 1 messages.
  lemma FewMessages(text: string)
    ensures |Split(text)| <= 2 * (|text| / (MAX_MESSAGE_LEN - 1)) + 1
  {
    hide Pieces, Interleave, Total;
    if text != "" {
      var chunks := Pieces(text);
      var gaps := PiecesReassemble(text);
      InterleaveLength(chunks, gaps);
      forall i | 0 <= i < |chunks| - 1 ensures |chunks[i]| + |chunks[i + 1]| >= MAX_MESSAGE_LEN - 1 {
        PairsLong(text, i);
      }
      PairTotal(chunks);
      Halves(|chunks|, |text|);
    }
  }

  // A short text is sent as it is. A long one is cut at the last newline that leaves something before it and no more
  // than a message, or, if there is none, after 2000 characters; the newlines at the cut are dropped, and the rest is
  // split the same way.
  lemma CutsAtNewline(text: string)
    ensures |text| <= 2000 ==> Split(text) == [text]
    ensures |text| > 2000 ==>
            var first := Split(text)[0];
            && 0 < |first| <= 2000 && first == text[..|first|]
            && ((exists i :: 0 < i < 2000 && text[i] == '\n') ==>
                  text[|first|] == '\n' && forall i :: |first| < i < 2000 ==> text[i] != '\n')
            && ((forall i :: 0 < i < 2000 ==> text[i] != '\n') ==> |first| == 2000)
            && exists k :: DropsNewlines(text[|first|..], k) && Split(text)[1..] == SplitOn(text, k)
  {
    hide LastNewline, StripNewlines, Newlines, Cut, Rest, Pieces, Split, DropsNewlines;
    if |text| <= 2000 {
      ShortIsWhole(text);
    } else {
      var cut, rest := Cut(text), Rest(text);
      FirstCut(text);
      CutPlace(text);
      StripDrops(text[cut..]);
      RestIs(text);
      var k := |text| - cut - |rest|;
      assert text[cut..][k..] == text[cut + k..];
      assert DropsNewlines(text[|Split(text)[0]|..], k) && Split(text)[1..] == SplitOn(text, k);
    }
  }

  lemma FirstCut(text: string)
    requires |text| > 2000
    ensures Split(text) == [text[..Cut(text)]] + Pieces(Rest(text))
    ensures Pieces(Rest(text)) == if Rest(text) == "" then [] else Split(Rest(text))
  {
    hide Cut, Rest;
  }

  lemma RestIs(text: string)
    requires |text| > 2000
    ensures Rest(text) == StripNewlines(text[Cut(text)..])
  {
    hide Cut, StripNewlines;
  }

  lemma CutPlace(text: string)
    requires |text| > 2000
    ensures (exists i :: 0 < i < 2000 && text[i] == '\n') ==>
              text[Cut(text)] == '\n' && forall i :: Cut(text) < i < 2000 ==> text[i] != '\n'
    ensures (forall i :: 0 < i < 2000 ==> text[i] != '\n') ==> Cut(text) == 2000
  {
    hide LastNewline;
    var i := LastNewline(text, MAX_MESSAGE_LEN);
  }

  // The first k characters are newlines, and the next is none.
  predicate DropsNewlines(text: string, k: int) {
    && 0 <= k <= |text| && (forall i :: 0 <= i < k ==> text[i] == '\n')
    && (k < |text| ==> text[k] != '\n')
  }

  // The messages for what is left after the first and k newlines: none for nothing.
  function SplitOn(text: string, k: int): seq<string>
    requires |text| > 2000 && 0 <= k <= |text| - |Split(text)[0]|
  {
    var rest := text[|Split(text)[0]| + k..];
    if rest == "" then [] else Split(rest)
  }

  lemma {:induction false} StripDrops(text: string)
    ensures var k := |text| - |StripNewlines(text)|;
            DropsNewlines(text, k) && StripNewlines(text) == text[k..]
  {
    if text != "" && text[0] == '\n' {
      StripDrops(text[1..]);
      var k := |text[1..]| - |StripNewlines(text[1..])|;
      assert text[1..][k..] == text[k + 1..];
      assert forall i :: 1 <= i < |text| ==> text[i] == text[1..][i - 1];
    }
  }

  lemma ShortIsWhole(text: string)
    requires |text| <= 2000
    ensures Split(text) == [text]
  {
  }
}
