/**
 * The speaker colour registry (app.py:13-57): a fixed palette of twenty
 * highlight colours, a pool that starts as a shuffled copy of it, and a map
 * from speaker name to the colour that speaker was given.
 */
module SpeakerColors {

  type Channel = x: int | 0 <= x < 256

  /** An `RGBColor(r, g, b)`. */
  datatype Rgb = Rgb(r: Channel, g: Channel, b: Channel)

  /** HIGHLIGHT_COLORS (app.py:15-36), in the source's order. */
  const HIGHLIGHT_COLORS: seq<Rgb> := [
    Rgb(255, 255, 0),    // yellow
    Rgb(153, 204, 255),  // light blue
    Rgb(152, 251, 152),  // pale green
    Rgb(255, 192, 203),  // pink
    Rgb(192, 192, 192),  // silver
    Rgb(255, 204, 153),  // peach
    Rgb(204, 204, 0),    // olive
    Rgb(255, 153, 204),  // medium pink
    Rgb(170, 170, 255),  // lavender
    Rgb(255, 228, 181),  // moccasin
    Rgb(128, 0, 128),    // purple
    Rgb(0, 128, 128),    // teal
    Rgb(255, 165, 0),    // orange
    Rgb(0, 255, 255),    // cyan
    Rgb(255, 0, 255),    // magenta
    Rgb(100, 149, 237),  // cornflower blue
    Rgb(255, 99, 71),    // tomato red
    Rgb(60, 179, 113),   // medium sea green
    Rgb(218, 112, 214),  // orchid
    Rgb(240, 230, 140)   // khaki
  ]

  ghost predicate Distinct<T>(s: seq<T>) {
    forall i, j :: 0 <= i < j < |s| ==> s[i] != s[j]
  }

  /** No two speakers share a colour. */
  predicate Injective(m: map<string, Rgb>) {
    forall x, y :: x in m && y in m && x != y ==> m[x] != m[y]
  }

  /** The palette holds twenty pairwise different colours. */
  lemma PaletteIsDistinct()
    ensures |HIGHLIGHT_COLORS| == 20
    ensures Distinct(HIGHLIGHT_COLORS)
  {
  }

  /** In a sequence without repeats every value occurs at most once. */
  lemma {:induction false} DistinctOccursOnce<T>(s: seq<T>, x: T)
    requires Distinct(s)
    ensures multiset(s)[x] <= 1
    decreases |s|
  {
    if s != [] {
      assert s == [s[0]] + s[1..];
      DistinctOccursOnce(s[1..], x);
      if x == s[0] {
        assert x !in s[1..] by {
          forall k | 0 <= k < |s[1..]| ensures s[1..][k] != x {
            assert s[1..][k] == s[k + 1];
          }
        }
      }
    }
  }

  /** A value at two positions occurs at least twice. */
  lemma RepeatOccursTwice<T>(s: seq<T>, i: int, j: int)
    requires 0 <= i < j < |s| && s[i] == s[j]
    ensures multiset(s)[s[i]] >= 2
  {
    assert s == s[..j] + [s[j]] + s[j + 1..];
    assert s[..j][i] == s[i];
    assert multiset(s) == multiset(s[..j]) + multiset([s[j]]) + multiset(s[j + 1..]);
  }

  /** A rearrangement of a sequence without repeats has no repeats and the same
      members: the shuffled pool (app.py:41-42) holds every palette colour once. */
  lemma PermutationOfDistinct<T>(s: seq<T>, t: seq<T>)
    requires multiset(s) == multiset(t) && Distinct(t)
    ensures Distinct(s)
    ensures forall k :: 0 <= k < |s| ==> s[k] in t
  {
    forall i, j | 0 <= i < j < |s| ensures s[i] != s[j] {
      if s[i] == s[j] {
        RepeatOccursTwice(s, i, j);
        DistinctOccursOnce(t, s[i]);
      }
    }
    forall k | 0 <= k < |s| ensures s[k] in t {
      assert s[k] in multiset(s);
    }
  }

  /** A pool of colours still to hand out: palette colours, none twice. */
  ghost predicate IsPool(pool: seq<Rgb>) {
    Distinct(pool) && forall k :: 0 <= k < |pool| ==> pool[k] in HIGHLIGHT_COLORS
  }

  /** Any shuffle of the palette (`random.shuffle`, app.py:41-42) is a full
      pool: twenty palette colours, none twice. */
  lemma ShuffledPaletteIsPool(shuffled: seq<Rgb>)
    requires multiset(shuffled) == multiset(HIGHLIGHT_COLORS)
    ensures IsPool(shuffled) && |shuffled| == |HIGHLIGHT_COLORS|
  {
    assert |shuffled| == |multiset(shuffled)|;
    PaletteIsDistinct();
    PermutationOfDistinct(shuffled, HIGHLIGHT_COLORS);
  }

  /** `speaker_color_map` and `used_colors` as one object, so that each
      conversion can be given its own registry. */
  class ColorRegistry {
    /** speaker_color_map: name to assigned colour. */
    var colors: map<string, Rgb>
    /** used_colors: the colours not yet handed out; the last one goes next. */
    var pool: seq<Rgb>

    /** The pool repeats no colour, everything in it or in the map is a palette
        colour, and no colour in the map is still in the pool. */
    ghost predicate Valid()
      reads this
    {
      && IsPool(pool)
      && (forall n :: n in colors ==> colors[n] in HIGHLIGHT_COLORS && colors[n] !in pool)
    }

    /** Module start-up (app.py:40-42); `shuffled` is the outcome of
        `random.shuffle`: twenty palette colours, none twice, which is what
        every rearrangement of the palette is (ShuffledPaletteIsPool). */
    constructor (shuffled: seq<Rgb>)
      requires IsPool(shuffled) && |shuffled| == |HIGHLIGHT_COLORS|
      ensures Valid()
      ensures colors == map[] && pool == shuffled
    {
      colors := map[];
      pool := shuffled;
    }

    /** The reset at the start of each conversion (app.py:99-100): the map is
        emptied, the pool is left as the previous conversion left it. */
    method ResetMap()
      requires Valid()
      modifies this
      ensures Valid()
      ensures colors == map[] && pool == old(pool)
    {
      colors := map[];
    }

    /** get_speaker_color (app.py:44-57). A known name gets its stored colour
        and nothing changes. A new name takes the pool's last colour, or, once
        the pool is empty, any palette colour (`random.choice`). */
    method GetSpeakerColor(name: string) returns (c: Rgb)
      requires Valid()
      modifies this
      ensures Valid()
      ensures c in HIGHLIGHT_COLORS
      ensures name in colors && colors[name] == c
      ensures name in old(colors) ==>
                c == old(colors)[name] && colors == old(colors) && pool == old(pool)
      ensures name !in old(colors) && old(pool) != [] ==>
                && c == old(pool)[|old(pool)| - 1]
                && pool == old(pool)[..|old(pool)| - 1]
                && colors == old(colors)[name := c]
      ensures name !in old(colors) && old(pool) == [] ==>
                pool == [] && colors == old(colors)[name := c]
      ensures name !in old(colors) && old(pool) != [] ==> c !in old(colors).Values
      ensures old(pool) != [] && Injective(old(colors)) ==> Injective(colors)
    {
      if name !in colors {
        var picked: Rgb;
        if pool != [] {
          picked := pool[|pool| - 1];
          pool := pool[..|pool| - 1];
        } else {
          assert HIGHLIGHT_COLORS[0] in HIGHLIGHT_COLORS;
          picked :| picked in HIGHLIGHT_COLORS;
        }
        colors := colors[name := picked];
      }
      c := colors[name];
    }
  }
}
