/** Streaming of content: the first 64 bytes are held back to tell plain text,
    which is relayed, from tool-call markup, which is not. */
module Sniffer {
  import opened Text

  const SNIFF_LEN: nat := 64
  const TAG: string := "<tool"

  // Length in UTF-8.
  function CharBytes(c: char): (n: nat)
    ensures 1 <= n <= 4
  {
    if c < '\U{80}' then 1 else if c < '\U{800}' then 2 else if c < '\U{10000}' then 3 else 4
  }

  function Bytes(s: string): nat {
    if s == "" then 0 else Bytes(s[..|s| - 1]) + CharBytes(s[|s| - 1])
  }

  predicate LooksLikeTool(s: string) {
    HasPrefix(TrimSpace(s), TAG)
  }

  function Concat(deltas: seq<string>): string {
    if deltas == [] then "" else Concat(deltas[..|deltas| - 1]) + deltas[|deltas| - 1]
  }

  // ---- the machine ----------------------------------------------------

  datatype Mode = Pending | PlainText | Markup

  datatype Sniff = Sniff(mode: Mode, sniffed: string, content: string, relayed: string)

  const START := Sniff(Pending, "", "", "")

  function Next(st: Sniff, delta: string): Sniff {
    var content := st.content + delta;
    match st.mode
    case Pending =>
      var sniffed := st.sniffed + delta;
      if Bytes(sniffed) < SNIFF_LEN then Sniff(Pending, sniffed, content, st.relayed)
      else if LooksLikeTool(sniffed) then Sniff(Markup, sniffed, content, st.relayed)
      else Sniff(PlainText, sniffed, content, st.relayed + sniffed)
    case PlainText => st.(content := content, relayed := st.relayed + delta)
    case Markup => st.(content := content)
  }

  function Finish(st: Sniff): Sniff {
    if st.mode == Pending && st.sniffed != "" then
      if LooksLikeTool(st.sniffed) then st.(mode := Markup) else st.(relayed := st.relayed + st.sniffed)
    else st
  }

  function After(deltas: seq<string>): Sniff {
    if deltas == [] then START else Next(After(deltas[..|deltas| - 1]), deltas[|deltas| - 1])
  }

  class ContentStream {
    var mode: Mode
    var sniffed: string
    var content: string
    var relayed: string           // everything given to onToken, concatenated

    ghost function State(): Sniff
      reads this
    {
      Sniff(mode, sniffed, content, relayed)
    }

    constructor ()
      ensures State() == START
    {
      mode, sniffed, content, relayed := Pending, "", "", "";
    }

    method EmitContent(delta: string)
      modifies this
      ensures State() == Next(old(State()), delta)
    {
      hide LooksLikeTool, Bytes;
      content := content + delta;
      match mode {
        case Pending =>
          sniffed := sniffed + delta;
          if Bytes(sniffed) >= SNIFF_LEN {
            if LooksLikeTool(sniffed) {
              mode := Markup;
            } else {
              mode := PlainText;
              relayed := relayed + sniffed;
            }
          }
        case PlainText => relayed := relayed + delta;
        case Markup =>
      }
    }

    // Short responses are decided at the end of the stream.
    method Flush()
      modifies this
      ensures State() == Finish(old(State()))
    {
      hide LooksLikeTool, Bytes;
      if mode == Pending && sniffed != "" {
        if LooksLikeTool(sniffed) {
          mode := Markup;
        } else {
          relayed := relayed + sniffed;
        }
      }
    }
  }

  /** Streams the content deltas of a response; empty ones are skipped. */
  method StreamContent(deltas: seq<string>) returns (content: string, relayed: string, mode: Mode)
    ensures var end := Finish(After(deltas)); content == end.content && relayed == end.relayed && mode == end.mode
  {
    var stream := new ContentStream();
    var i := 0;
    while i < |deltas|
      invariant 0 <= i <= |deltas| && stream.State() == After(deltas[..i])
    {
      assert deltas[..i + 1][..i] == deltas[..i];
      if deltas[i] != "" {
        stream.EmitContent(deltas[i]);
      } else {
        EmptyDelta(deltas[..i]);
      }
      i := i + 1;
    }
    assert deltas[..i] == deltas;
    stream.Flush();
    content, relayed, mode := stream.content, stream.relayed, stream.mode;
  }

  // An empty delta changes nothing: what is pending is below the limit.
  lemma EmptyDelta(deltas: seq<string>)
    ensures Next(After(deltas), "") == After(deltas)
  {
    hide Bytes, LooksLikeTool;
    Decided(deltas);
    var st := After(deltas);
    assert st.sniffed + "" == st.sniffed && st.content + "" == st.content && st.relayed + "" == st.relayed;
  }

  // What a mode says about the content so far.
  ghost predicate Faithful(st: Sniff) {
    match st.mode
    case Pending => st.sniffed == st.content && st.relayed == "" && Bytes(st.content) < SNIFF_LEN
    case PlainText => st.relayed == st.content && st.sniffed <= st.content && Bytes(st.sniffed) >= SNIFF_LEN && !LooksLikeTool(st.sniffed)
    case Markup => st.relayed == "" && st.sniffed <= st.content && Bytes(st.sniffed) >= SNIFF_LEN && LooksLikeTool(st.sniffed)
  }

  lemma {:induction false} Decided(deltas: seq<string>)
    ensures Faithful(After(deltas)) && After(deltas).content == Concat(deltas)
  {
    hide Bytes, LooksLikeTool;
    if deltas == [] {
      NoBytes();
    } else {
      Decided(deltas[..|deltas| - 1]);
    }
  }

  lemma NoBytes()
    ensures Bytes("") == 0
  {
  }

  // ---- leading space and the tag --------------------------------------

  /** The bytes of leading white space. */
  function LeadingBytes(s: string): nat {
    Bytes(s[..|s| - |TrimLeft(s)|])
  }

  lemma {:induction false} BytesPrefix(p: string, s: string)
    requires p <= s
    ensures Bytes(p) <= Bytes(s)
    decreases |s|
  {
    if p != s {
      BytesPrefix(p, s[..|s| - 1]);
    }
  }

  lemma {:induction false} BytesAscii(s: string, t: string)
    requires forall i :: 0 <= i < |t| ==> t[i] < '\U{80}'
    ensures Bytes(s + t) == Bytes(s) + |t|
    decreases |t|
  {
    if t == "" {
      assert s + t == s;
    } else {
      BytesAscii(s, t[..|t| - 1]);
      assert (s + t)[..|s + t| - 1] == s + t[..|t| - 1];
    }
  }

  lemma {:induction false} TrimLeftIs(s: string, n: nat)
    requires n <= |s| && (forall i :: 0 <= i < n ==> IsSpace(s[i])) && (n < |s| ==> !IsSpace(s[n]))
    ensures TrimLeft(s) == s[n..]
    decreases n
  {
    hide IsSpace;
    if n > 0 {
      TrimLeftIs(s[1..], n - 1);
    }
  }

  lemma TagHasNoSpace()
    ensures forall i :: 0 <= i < |TAG| ==> !IsSpace(TAG[i])
  {
  }

  // What TrimRight leaves of text with the tag still has it.
  lemma TagSurvives(left: string)
    requires HasPrefix(left, TAG)
    ensures HasPrefix(TrimRight(left), TAG)
  {
    hide IsSpace;
    TagHasNoSpace();
    var both := TrimRight(left);
    assert left[|TAG| - 1] == TAG[|TAG| - 1];
    assert |both| >= |TAG|;
    assert both[..|TAG|] == left[..|TAG|];
  }

  // Trailing space never hides the tag.
  lemma LooksByLeft(s: string)
    ensures LooksLikeTool(s) <==> HasPrefix(TrimLeft(s), TAG)
  {
    hide IsSpace, TrimLeft, TrimRight;
    var left := TrimLeft(s);
    if HasPrefix(left, TAG) {
      TagSurvives(left);
    }
    assert TrimRight(left) <= left;
  }

  // The first n characters are white space.
  predicate SpaceUpTo(s: string, n: nat) {
    n <= |s| && forall i :: 0 <= i < n ==> IsSpace(s[i])
  }

  predicate TagAt(s: string, n: nat) {
    n + |TAG| <= |s| && s[n..n + |TAG|] == TAG
  }

  lemma LeadingIsSpace(s: string)
    ensures SpaceUpTo(s, |s| - |TrimLeft(s)|) && s[|s| - |TrimLeft(s)|..] == TrimLeft(s)
  {
    hide TrimLeft, IsSpace;
    assert TrimLeft(s) == s[|s| - |TrimLeft(s)|..];
  }

  lemma TrimmedAtTag(s: string, n: nat)
    requires SpaceUpTo(s, n) && TagAt(s, n)
    ensures TrimLeft(s) == s[n..]
  {
    TagHasNoSpace();
    hide IsSpace;
    assert s[n] == s[n..n + |TAG|][0];
    TrimLeftIs(s, n);
  }

  // The content is white space followed by the tag and more.
  lemma TagAfterSpace(s: string, n: nat)
    requires SpaceUpTo(s, n) && TagAt(s, n)
    ensures LooksLikeTool(s) && |TrimLeft(s)| == |s| - n
  {
    hide LooksLikeTool, TrimLeft, SpaceUpTo;
    TrimmedAtTag(s, n);
    LooksByLeft(s);
    assert s[n..][..|TAG|] == s[n..n + |TAG|];
  }

  lemma LooksMeans(s: string) returns (n: nat)
    requires LooksLikeTool(s)
    ensures SpaceUpTo(s, n) && TagAt(s, n)
    ensures n == |s| - |TrimLeft(s)|
  {
    hide LooksLikeTool, TrimLeft, SpaceUpTo;
    LooksByLeft(s);
    LeadingIsSpace(s);
    n := |s| - |TrimLeft(s)|;
    assert TrimLeft(s)[..|TAG|] == s[n..][..|TAG|] == s[n..n + |TAG|];
  }

  lemma PrefixLooks(p: string, whole: string)
    requires p <= whole && LooksLikeTool(p)
    ensures LooksLikeTool(whole)
  {
    hide LooksLikeTool, IsSpace;
    var n := LooksMeans(p);
    assert whole[n..n + |TAG|] == p[n..n + |TAG|];
    TagAfterSpace(whole, n);
  }

  // White space and all of the tag but its last character.
  function AlmostTagged(space: string): string {
    space + TAG[..|TAG| - 1]
  }

  lemma AlmostTaggedBytes(space: string)
    ensures Bytes(AlmostTagged(space)) == Bytes(space) + |TAG| - 1
  {
    hide Bytes;
    BytesAscii(space, TAG[..|TAG| - 1]);
  }

  lemma TagFront(whole: string, n: nat)
    requires TagAt(whole, n)
    ensures AlmostTagged(whole[..n]) == whole[..n + |TAG| - 1]
  {
    assert whole[..n + |TAG| - 1] == whole[..n] + whole[n..n + |TAG|][..|TAG| - 1];
  }

  // With little leading space, 64 bytes reach past the tag.
  lemma LongPrefixLooks(p: string, whole: string)
    requires p <= whole && LooksLikeTool(whole) && Bytes(p) >= SNIFF_LEN && LeadingBytes(whole) < SNIFF_LEN - |TAG| + 1
    ensures LooksLikeTool(p)
  {
    hide LooksLikeTool, IsSpace, Bytes, TrimLeft, AlmostTagged;
    var n := LooksMeans(whole);
    TagFront(whole, n);
    AlmostTaggedBytes(whole[..n]);
    if |p| < n + |TAG| {
      BytesPrefix(p, whole[..n + |TAG| - 1]);
      assert false;
    }
    assert p[n..n + |TAG|] == whole[n..n + |TAG|];
    TagAfterSpace(p, n);
  }

  // ---- streaming refines the whole-content function -------------------

  /** What should be relayed for a complete response. */
  function Relay(whole: string): string {
    if LooksLikeTool(whole) then "" else whole
  }

  /** With less than 60 bytes of leading white space, or without a tag, every
      split into deltas relays what the whole content would. */
  lemma StreamingRefines(deltas: seq<string>)
    requires var whole := Concat(deltas); !LooksLikeTool(whole) || LeadingBytes(whole) < 60
    ensures Finish(After(deltas)).relayed == Relay(Concat(deltas))
  {
    hide LooksLikeTool, Bytes, LeadingBytes;
    Decided(deltas);
    var st, whole := After(deltas), Concat(deltas);
    match st.mode
    case Pending => NoTag();
    case PlainText =>
      if LooksLikeTool(whole) {
        LongPrefixLooks(st.sniffed, whole);
      }
    case Markup =>
      PrefixLooks(st.sniffed, whole);
  }

  lemma NoTag()
    ensures !LooksLikeTool("")
  {
  }

  lemma TwoDeltas(first: string, rest: string)
    requires Bytes(first) >= SNIFF_LEN && !LooksLikeTool(first)
    ensures Concat([first, rest]) == first + rest && Finish(After([first, rest])).relayed == first + rest
  {
    hide Bytes, LooksLikeTool;
    var one, two := [first], [first, rest];
    assert one[..0] == [] && two[..1] == one;
    assert Concat(one) == first;
    assert START.sniffed + first == first && START.relayed + first == first;
    assert After(one) == Next(START, first);
    assert After(two) == Next(After(one), rest);
  }

  // White space up to the last character of the tag is not a tag.
  lemma AlmostTag(space: string)
    requires SpaceUpTo(space, |space|)
    ensures !LooksLikeTool(AlmostTagged(space))
  {
    hide LooksLikeTool;
    var first := AlmostTagged(space);
    TagHasNoSpace();
    hide IsSpace;
    assert first[|space|] == TAG[0];
    TrimLeftIs(first, |space|);
    LooksByLeft(first);
  }

  lemma SpaceAlone(s: string, n: nat)
    requires SpaceUpTo(s, n)
    ensures SpaceUpTo(s[..n], |s[..n]|)
  {
  }

  /** The bound is exact: content with a tag after 60 or more bytes of white
      space has a split that relays the markup. */
  lemma SplitThatLeaks(whole: string) returns (deltas: seq<string>)
    requires LooksLikeTool(whole) && LeadingBytes(whole) >= 60
    ensures Concat(deltas) == whole && Finish(After(deltas)).relayed == whole != Relay(whole)
  {
    hide IsSpace, Bytes, LooksLikeTool, Concat, After, Finish, AlmostTagged, SpaceUpTo, TrimLeft;
    var n := LooksMeans(whole);
    var first := AlmostTagged(whole[..n]);
    TagFront(whole, n);
    SpaceAlone(whole, n);
    AlmostTag(whole[..n]);
    AlmostTaggedBytes(whole[..n]);
    TwoDeltas(first, whole[|first|..]);
    assert first + whole[|first|..] == whole;
    deltas := [first, whole[|first|..]];
  }

  /** Streaming agrees with the whole content for every split if and only if
      there is no tag or less than 60 bytes of white space before it. */
  lemma StreamingExact(whole: string)
    ensures (forall deltas :: Concat(deltas) == whole ==> Finish(After(deltas)).relayed == Relay(whole))
        <==> (!LooksLikeTool(whole) || LeadingBytes(whole) < 60)
  {
    hide LooksLikeTool, LeadingBytes, Finish, After, Relay;
    if !LooksLikeTool(whole) || LeadingBytes(whole) < 60 {
      forall deltas | Concat(deltas) == whole
        ensures Finish(After(deltas)).relayed == Relay(whole)
      {
        StreamingRefines(deltas);
      }
    } else {
      var deltas := SplitThatLeaks(whole);
    }
  }
}
