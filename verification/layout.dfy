/** The channel names and channel types both datasets attach to every run:
    the 60 names of the cap as listed, upper-cased, with the two mastoid
    references `M1`, `M2` and the cerebellar `CB1` spliced in, and `CB2`
    and the trigger channel `STI 014` appended. */
module Layout {
  import opened Seqs

  datatype ChannelType = Eeg | Misc | Stim

  /** The channel list as the datasets declare it (identical for Wang2016
      and BETA), kept in the nine-per-line layout of the declaration. */
  const Line1: seq<string> := ["FP1", "FPZ", "FP2", "AF3", "AF4", "F7", "F5", "F3", "F1"]
  const Line2: seq<string> := ["FZ", "F2", "F4", "F6", "F8", "FT7", "FC5", "FC3", "FC1"]
  const Line3: seq<string> := ["FCZ", "FC2", "FC4", "FC6", "FT8", "T7", "C5", "C3", "C1"]
  const Line4: seq<string> := ["CZ", "C2", "C4", "C6", "T8", "TP7", "CP5", "CP3", "CP1"]
  const Line5: seq<string> := ["CPZ", "CP2", "CP4", "CP6", "TP8", "P7", "P5", "P3", "P1"]
  const Line6: seq<string> := ["PZ", "P2", "P4", "P6", "P8", "PO7", "PO5", "PO3", "POZ"]
  const Line7: seq<string> := ["PO4", "PO6", "PO8", "O1", "OZ", "O2"]
  const Channels: seq<string> := Line1 + Line2 + Line3 + Line4 + Line5 + Line6 + Line7

  const Stimulus: string := "STI 014"

  /** The positions of the five names that are not in `Channels`. */
  const Added: set<int> := {32, 42, 59, 63, 64}

  /** `str.upper` on ASCII text. */
  function UpperChar(c: char): char {
    if 'a' <= c <= 'z' then (c as int - 32) as char else c
  }

  function Upper(s: string): (r: string)
    ensures |r| == |s|
  {
    seq(|s|, i requires 0 <= i < |s| => UpperChar(s[i]))
  }

  function UpperAll(names: seq<string>): (r: seq<string>)
    ensures |r| == |names|
    ensures forall i :: 0 <= i < |names| ==> r[i] == Upper(names[i])
  {
    seq(|names|, i requires 0 <= i < |names| => Upper(names[i]))
  }

  /** `M1`, `M2`, `CB1` inserted in that order into a list of 60 names, and
      `CB2`, `STI 014` appended. */
  function Splice(u: seq<string>): (names: seq<string>)
    requires |u| == 60
    ensures |names| == 65
    ensures names[32] == "M1" && names[42] == "M2" && names[59] == "CB1"
    ensures names[63] == "CB2" && names[64] == Stimulus
  {
    var a := Insert(u, 32, "M1");
    var b := Insert(a, 42, "M2");
    var c := Insert(b, 59, "CB1");
    assert c[32] == a[32] by {
      assert b[..42] == a[..42];
      assert c[..59] == b[..59];
    }
    assert c[42] == b[42] by {
      assert c[..59] == b[..59];
    }
    c + ["CB2", Stimulus]
  }

  /** The channel names of every run: the declared list upper-cased and
      spliced. The five added names sit at 32, 42, 59, 63 and 64, and
      deleting those positions leaves the upper-cased declared list. */
  function ChannelNames(): (names: seq<string>)
    ensures |names| == 65
    ensures names[32] == "M1" && names[42] == "M2" && names[59] == "CB1"
    ensures names[63] == "CB2" && names[64] == Stimulus
    ensures Without(names, Added) == UpperAll(Channels)
  {
    SpliceWithoutAdded(UpperAll(Channels));
    Splice(UpperAll(Channels))
  }

  /** Sixty-five `eeg` entries with 59 and 63 set to `misc` and the last one
      to `stim`. */
  function ChannelTypes(): (types: seq<ChannelType>)
    ensures |types| == |ChannelNames()|
    ensures forall i :: 0 <= i < |types| ==>
      && (types[i] == Misc <==> i == 59 || i == 63)
      && (types[i] == Stim <==> i == |types| - 1)
  {
    var t := seq(65, _ => Eeg);
    t[59 := Misc][63 := Misc][64 := Stim]
  }

  /** 60 declared names and 5 added ones: 65 names and 65 types. */
  lemma LayoutSize()
    ensures |Channels| == 60 && |Added| == 5
    ensures |ChannelNames()| == |ChannelTypes()| == |Channels| + |Added|
  {
    assert Added == {32, 42, 59} + {63, 64};
  }

  /** Deleting the five added positions from a spliced list gives back the
      list, in its original order. */
  lemma SpliceWithoutAdded(u: seq<string>)
    requires |u| == 60
    ensures Without(Splice(u), Added) == u
  {
    var a := Insert(u, 32, "M1");
    var b := Insert(a, 42, "M2");
    var c := Insert(b, 59, "CB1");
    var names := c + ["CB2", Stimulus];
    assert names == Splice(u);
    WithoutHighest(names, 64, {32, 42, 59, 63}, 0);
    assert RemoveAt(names, 64) == c + ["CB2"];
    assert {32, 42, 59, 63} + {64} == Added;
    WithoutHighest(c + ["CB2"], 63, {32, 42, 59}, 0);
    assert RemoveAt(c + ["CB2"], 63) == c;
    assert {32, 42, 59} + {63} == {32, 42, 59, 63};
    WithoutHighest(c, 59, {32, 42}, 0);
    assert {32, 42} + {59} == {32, 42, 59};
    WithoutHighest(b, 42, {32}, 0);
    assert {32} + {42} == {32, 42};
    WithoutHighest(a, 32, {}, 0);
    assert {} + {32} == {32};
    WithoutUntouched(u, {}, 0);
  }

  /** Every listed name keeps its relative order: name `j` moves right by
      the number of added names in front of it. */
  function Shifted(j: nat): nat {
    if j < 32 then j else if j < 41 then j + 1 else if j < 57 then j + 2 else j + 3
  }

  lemma SpliceKeepsOrder(u: seq<string>)
    requires |u| == 60
    ensures forall j :: 0 <= j < 60 ==>
      Shifted(j) < 65 && Shifted(j) !in Added && Splice(u)[Shifted(j)] == u[j]
  {
    var a := Insert(u, 32, "M1");
    var b := Insert(a, 42, "M2");
    var c := Insert(b, 59, "CB1");
    assert Splice(u) == c + ["CB2", Stimulus];
    assert a == u[..32] + ["M1"] + u[32..] by {
      assert RemoveAt(a, 32) == u;
    }
    assert b == a[..42] + ["M2"] + a[42..] by {
      assert RemoveAt(b, 42) == a;
    }
    assert c == b[..59] + ["CB1"] + b[59..] by {
      assert RemoveAt(c, 59) == b;
    }
  }

  /** The type list marks exactly the channels named `CB1` and `CB2` as
      `misc` and exactly the channel named `STI 014` as `stim`. */
  lemma TypesFollowNames()
    ensures forall i :: 0 <= i < 65 ==>
      && (ChannelTypes()[i] == Misc <==> ChannelNames()[i] in {"CB1", "CB2"})
      && (ChannelTypes()[i] == Stim <==> ChannelNames()[i] == Stimulus)
  {
    forall i | 0 <= i < 65 && i !in Added
      ensures ChannelNames()[i] !in {"CB1", "CB2", Stimulus}
    {
      ListedNotAdded(i);
    }
  }

  /** A name at a position that was not added is a declared one, so it is
      none of the added names. */
  lemma ListedNotAdded(i: nat)
    requires i < 65 && i !in Added
    ensures ChannelNames()[i] !in {"CB1", "CB2", Stimulus}
  {
    var j := Unshifted(i);
    SpliceKeepsOrder(UpperAll(Channels));
    assert ChannelNames()[i] == Upper(Channels[j]);
    DeclaredNotAdded(j);
  }

  function Unshifted(i: nat): (j: nat)
    requires i < 65 && i !in Added
    ensures j < 60 && Shifted(j) == i
  {
    if i < 32 then i else if i < 42 then i - 1 else if i < 59 then i - 2 else i - 3
  }

  /** No declared name, once upper-cased, is one of the added ones. */
  lemma DeclaredNotAdded(j: nat)
    requires j < |Channels|
    ensures Upper(Channels[j]) !in {"CB1", "CB2", Stimulus}
  {
    var s := Channels[j];
    DeclaredShort(j);
    assert Upper(s)[1] == UpperChar(s[1]);
  }

  /** A declared name has two or three characters, the second not a 'B'.
      This is all `DeclaredNotAdded` needs to keep the declared names apart
      from `CB1`, `CB2` and `STI 014`: those have a 'B' second or seven
      characters. Checking one character per name is cheaper for the
      verifier than comparing every name with each added one. */
  predicate Short(s: string) {
    2 <= |s| <= 3 && s[1] != 'B' && s[1] != 'b'
  }

  /** Every name of the list is `Short`. */
  predicate AllShort(names: seq<string>) {
    forall i :: 0 <= i < |names| ==> Short(names[i])
  }

  lemma DeclaredShort(j: nat)
    requires j < |Channels|
    ensures Short(Channels[j])
  {
    LinesShort();
    var a := Line1 + Line2;
    ShortAppend(Line1, Line2);
    ShortAppend(a, Line3);
    ShortAppend(a + Line3, Line4);
    ShortAppend(a + Line3 + Line4, Line5);
    ShortAppend(a + Line3 + Line4 + Line5, Line6);
    ShortAppend(a + Line3 + Line4 + Line5 + Line6, Line7);
  }

  /** Joining two lists of short names gives a list of short names. */
  lemma ShortAppend(a: seq<string>, b: seq<string>)
    requires AllShort(a) && AllShort(b)
    ensures AllShort(a + b)
  {
    forall i | 0 <= i < |a + b|
      ensures Short((a + b)[i])
    {
      if i >= |a| {
        assert (a + b)[i] == b[i - |a|];
      }
    }
  }

  /** Each line of the declaration lists short names only. */
  lemma LinesShort()
    ensures AllShort(Line1) && AllShort(Line2) && AllShort(Line3) && AllShort(Line4)
    ensures AllShort(Line5) && AllShort(Line6) && AllShort(Line7)
  {
  }
}
