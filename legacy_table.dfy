/** The dotted paths of the global legacy mappings, split into keys. */
module LegacyTable {
  import opened Strings
  import opened LegacyMapper

  lemma SplitNoSep(s: string, c: char)
    requires c !in s
    ensures Split(s, c) == [s]
  {
    assert IndexOf(s, c) == |s|;
  }

  lemma SplitOneSep(a: string, b: string, c: char)
    requires c !in a && c !in b
    ensures Split(a + [c] + b, c) == [a, b]
  {
    var s := a + [c] + b;
    var i := IndexOf(s, c);
    IndexOfFirst(s, c);
    assert s[|a|] == c;
    assert s[..i] == a && s[i + 1..] == b;
    SplitNoSep(b, c);
  }

  /** The keys of the new paths of the global mappings, in table order. */
  const GlobalTargetKeys: seq<seq<string>> := [
    ["max_rate_mm_per_min"], ["acceleration_mm_per_sec2"],
    ["spindle", "output_pin"], ["spindle", "enable_pin"], ["spindle", "direction_pin"]
  ]

  lemma TwoKeys(s: string, a: string, b: string)
    requires s == a + ['.'] + b && '.' !in a && '.' !in b
    ensures Split(s, '.') == [a, b]
  {
    SplitOneSep(a, b, '.');
  }

  /** No old path of the global table has a dot. */
  lemma OldPathsHaveNoDot(i: nat)
    requires i < |GlobalLegacyMappings|
    ensures '.' !in GlobalLegacyMappings[i].oldPath && GlobalLegacyMappings[i].oldPath != ""
  {
  }

  /** The first two global mappings target a single key. */
  lemma NewPathsSingle(i: nat)
    requires i < 2
    ensures GlobalTargetKeys[i] == [GlobalLegacyMappings[i].newPath] && '.' !in GlobalLegacyMappings[i].newPath
  {
  }

  /** The other three target a key of `spindle`. */
  lemma NewPathsPair(i: nat)
    requires 2 <= i < |GlobalLegacyMappings|
    ensures |GlobalTargetKeys[i]| == 2
    ensures GlobalLegacyMappings[i].newPath == GlobalTargetKeys[i][0] + ['.'] + GlobalTargetKeys[i][1]
  {
  }

  lemma PairKeysHaveNoDot(i: nat)
    requires 2 <= i < |GlobalTargetKeys|
    ensures |GlobalTargetKeys[i]| == 2 && '.' !in GlobalTargetKeys[i][0] && '.' !in GlobalTargetKeys[i][1]
  {
  }

  lemma TargetKeysNonEmpty(i: nat)
    requires i < |GlobalTargetKeys|
    ensures 1 <= |GlobalTargetKeys[i]| <= 2
    ensures forall k :: 0 <= k < |GlobalTargetKeys[i]| ==> GlobalTargetKeys[i][k] != ""
  {
  }

  /** Each old path is a single key; each new path splits into the keys
      listed for it. */
  lemma GlobalRowSplits(i: nat)
    requires i < |GlobalLegacyMappings|
    ensures Split(GlobalLegacyMappings[i].oldPath, '.') == [GlobalLegacyMappings[i].oldPath]
    ensures Split(GlobalLegacyMappings[i].newPath, '.') == GlobalTargetKeys[i]
  {
    var m, q := GlobalLegacyMappings[i], GlobalTargetKeys[i];
    OldPathsHaveNoDot(i);
    SplitNoSep(m.oldPath, '.');
    if i < 2 {
      NewPathsSingle(i);
      SplitNoSep(m.newPath, '.');
    } else {
      NewPathsPair(i);
      PairKeysHaveNoDot(i);
      TwoKeys(m.newPath, q[0], q[1]);
    }
  }

  /** The global table touches neither `axes` nor the axis names. */
  lemma GlobalAvoids(j: nat, key: string)
    requires j < |GlobalLegacyMappings| && (key == "axes" || key in AxisNames)
    ensures GlobalLegacyMappings[j].oldPath != key && GlobalTargetKeys[j][0] != key
  {
  }
}
