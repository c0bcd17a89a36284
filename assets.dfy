/** The asset library's lookups over the fixed mock catalogue: the search
    filter, lookup by id and lookup by tag. */
module Assets {
  import opened Wrappers
  import opened StoryboardTypes
  import opened Seqs

  /** The six demonstration assets, in catalogue order. */
  const MockAssets: seq<Asset> := [
    Asset("1", "Mountain Landscape",
          "https://images.unsplash.com/photo-1506905925346-21bda4d32df4?w=800",
          "https://images.unsplash.com/photo-1506905925346-21bda4d32df4?w=300",
          Image, ["landscape", "mountain", "nature"], Some("John Doe"), Some("Unsplash")),
    Asset("2", "Urban Cityscape",
          "https://images.unsplash.com/photo-1449824913935-59a10b8d2000?w=800",
          "https://images.unsplash.com/photo-1449824913935-59a10b8d2000?w=300",
          Image, ["city", "urban", "skyline"], Some("Jane Smith"), Some("Unsplash")),
    Asset("3", "Forest Path",
          "https://images.unsplash.com/photo-1441974231531-c6227db76b6e?w=800",
          "https://images.unsplash.com/photo-1441974231531-c6227db76b6e?w=300",
          Image, ["forest", "path", "nature"], Some("Bob Johnson"), Some("Unsplash")),
    Asset("4", "Ocean Waves",
          "https://images.unsplash.com/photo-1505142468610-359e7d316be0?w=800",
          "https://images.unsplash.com/photo-1505142468610-359e7d316be0?w=300",
          Image, ["ocean", "waves", "water"], Some("Alice Brown"), Some("Unsplash")),
    Asset("5", "Desert Dunes",
          "https://images.unsplash.com/photo-1509316975850-ff9c5deb0cd9?w=800",
          "https://images.unsplash.com/photo-1509316975850-ff9c5deb0cd9?w=300",
          Image, ["desert", "dunes", "sand"], Some("Mike Wilson"), Some("Unsplash")),
    Asset("6", "Night Sky",
          "https://images.unsplash.com/photo-1419242902214-272b3f66ee7a?w=800",
          "https://images.unsplash.com/photo-1419242902214-272b3f66ee7a?w=300",
          Image, ["night", "stars", "sky"], Some("Sarah Davis"), Some("Unsplash"))
  ]

  /** `c` and `d` are the same character, or the two cases of one ASCII letter. */
  predicate CaseVariants(c: char, d: char)
  {
    c == d ||
    ('a' <= c <= 'z' && d as int == c as int - 32) ||
    ('a' <= d <= 'z' && c as int == d as int - 32)
  }

  /** ASCII lower-casing of one character: no upper-case letter is left, and
      the result is the character itself or its other case. */
  function LowerChar(c: char): (r: char)
    ensures !('A' <= r <= 'Z')
    ensures CaseVariants(c, r)
    ensures !('A' <= c <= 'Z') ==> r == c
  {
    if 'A' <= c <= 'Z' then (c as int + 32) as char else c
  }

  /** Lower-casing a character twice is lower-casing it once. */
  lemma LowerCharIdempotent(c: char)
    ensures LowerChar(LowerChar(c)) == LowerChar(c)
  {
  }

  /** Two characters lower-case alike exactly when they differ at most in ASCII case. */
  lemma LowerCharSameIff(c: char, d: char)
    ensures LowerChar(c) == LowerChar(d) <==> CaseVariants(c, d)
  {
  }

  /** `toLowerCase`, restricted to ASCII letters: same length, no upper-case
      letter left, and every character kept up to case. */
  function Lower(s: string): (r: string)
    ensures |r| == |s|
    ensures forall i :: 0 <= i < |r| ==> !('A' <= r[i] <= 'Z')
    ensures forall i :: 0 <= i < |r| ==> CaseVariants(s[i], r[i])
  {
    seq(|s|, i requires 0 <= i < |s| => LowerChar(s[i]))
  }

  /** Lower-casing is idempotent. */
  lemma LowerIdempotent(s: string)
    ensures Lower(Lower(s)) == Lower(s)
  {
  }

  /** Two strings lower-case alike exactly when they agree position by position up to ASCII case. */
  lemma LowerSameIff(s: string, t: string)
    ensures Lower(s) == Lower(t) <==>
            |s| == |t| && forall i :: 0 <= i < |s| ==> CaseVariants(s[i], t[i])
  {
    if |s| == |t| && forall i :: 0 <= i < |s| ==> CaseVariants(s[i], t[i]) {
      forall i | 0 <= i < |s| ensures Lower(s)[i] == Lower(t)[i] {
        LowerCharSameIff(s[i], t[i]);
      }
    }
    if Lower(s) == Lower(t) {
      forall i | 0 <= i < |s| ensures CaseVariants(s[i], t[i]) {
        assert Lower(s)[i] == Lower(t)[i];
        LowerCharSameIff(s[i], t[i]);
      }
    }
  }

  predicate IsPrefix(p: string, s: string)
  {
    |p| <= |s| && s[..|p|] == p
  }

  /** `s.includes(q)`: `q` occurs in `s` at some offset (the empty string occurs everywhere). */
  function Includes(s: string, q: string): (r: bool)
    ensures r ==> |q| <= |s|
    ensures IsPrefix(q, s) ==> r
    decreases |s|
  {
    IsPrefix(q, s) || (s != [] && Includes(s[1..], q))
  }

  /** `Includes` agrees with the direct definition: some suffix of `s` starts with `q`. */
  lemma {:induction false} IncludesIff(s: string, q: string)
    ensures Includes(s, q) <==> exists i :: 0 <= i <= |s| && IsPrefix(q, s[i..])
  {
    assert s[0..] == s;
    if s != [] {
      IncludesIff(s[1..], q);
      forall i | 1 <= i <= |s| ensures s[i..] == s[1..][i - 1..] { }
      if Includes(s[1..], q) {
        var i :| 0 <= i <= |s[1..]| && IsPrefix(q, s[1..][i..]);
        assert s[i + 1..] == s[1..][i..];
      }
    }
  }

  /** The characters `trim` removes: the ECMAScript white space and line terminators. */
  predicate IsWhitespace(c: char)
  {
    var n := c as int;
    n == 0x09 || n == 0x0A || n == 0x0B || n == 0x0C || n == 0x0D || n == 0x20 ||
    n == 0xA0 || n == 0x1680 || (0x2000 <= n <= 0x200A) || n == 0x2028 || n == 0x2029 ||
    n == 0x202F || n == 0x205F || n == 0x3000 || n == 0xFEFF
  }

  /** `trimStart`: drops the leading white space; what remains is empty or starts
      with a character that is not white space. */
  function TrimStart(s: string): (r: string)
    ensures |r| <= |s| && r == s[|s| - |r|..]
    ensures forall i :: 0 <= i < |s| - |r| ==> IsWhitespace(s[i])
    ensures r == [] || !IsWhitespace(r[0])
  {
    if s != [] && IsWhitespace(s[0]) then TrimStart(s[1..]) else s
  }

  /** `trimEnd`: drops the trailing white space; what remains is empty or ends
      with a character that is not white space. */
  function TrimEnd(s: string): (r: string)
    ensures |r| <= |s| && r == s[..|r|]
    ensures forall i :: |r| <= i < |s| ==> IsWhitespace(s[i])
    ensures r == [] || !IsWhitespace(r[|r| - 1])
  {
    if s != [] && IsWhitespace(s[|s| - 1]) then TrimEnd(s[..|s| - 1]) else s
  }

  /** `trim`: white space removed at both ends. */
  function Trim(s: string): string
  {
    TrimEnd(TrimStart(s))
  }

  /** `!query.trim()`: the trimmed query is empty, which holds exactly when the
      query is empty or white space only. */
  function IsBlank(query: string): (r: bool)
    ensures r <==> forall i :: 0 <= i < |query| ==> IsWhitespace(query[i])
  {
    Trim(query) == []
  }

  /** The search predicate: the lower-cased title, or some lower-cased tag,
      contains the lower-cased query. An empty query matches everything, and a
      match needs a title or a tag at least as long as the query. */
  function MatchesQuery(a: Asset, query: string): (r: bool)
    ensures |query| == 0 ==> r
    ensures r ==> |query| <= |a.title| || exists i :: 0 <= i < |a.tags| && |query| <= |a.tags[i]|
  {
    Includes(Lower(a.title), Lower(query)) ||
    exists i :: 0 <= i < |a.tags| && Includes(Lower(a.tags[i]), Lower(query))
  }

  /** The search ignores the case of the query. */
  lemma MatchesQueryIgnoresCase(a: Asset, query: string)
    ensures MatchesQuery(a, Lower(query)) == MatchesQuery(a, query)
  {
    LowerIdempotent(query);
  }

  /** A search for "Nature" finds, regardless of case, the assets tagged "nature". */
  lemma SearchNatureExample()
    ensures MockAssets[0] in SearchAssets("Nature") && MockAssets[2] in SearchAssets("Nature")
  {
    assert !IsWhitespace("Nature"[0]);
    assert Lower("Nature") == "nature";
    assert Lower(MockAssets[0].tags[2]) == "nature" && IsPrefix("nature", "nature");
    assert Lower(MockAssets[2].tags[2]) == "nature";
    assert MatchesQuery(MockAssets[0], "Nature");
    assert MatchesQuery(MockAssets[2], "Nature");
  }

  /** The result `searchAssets(query)` stores: the whole catalogue for a blank
      query, otherwise the catalogue entries matching the (untrimmed) query. */
  function SearchAssets(query: string): (r: seq<Asset>)
    ensures IsBlank(query) ==> r == MockAssets
    ensures !IsBlank(query) ==> forall a :: a in r <==> a in MockAssets && MatchesQuery(a, query)
    ensures IsSubsequence(r, MockAssets)
  {
    if IsBlank(query) then
      SubsequenceReflexive(MockAssets);
      MockAssets
    else
      Filter(MockAssets, (a: Asset) => MatchesQuery(a, query))
  }

  lemma {:induction false} SubsequenceReflexive<T>(s: seq<T>)
    ensures IsSubsequence(s, s)
  {
    if s != [] {
      SubsequenceReflexive(s[1..]);
    }
  }

  /** `getAssetById`: the first asset with that id, or `None` when there is none. */
  function AssetById(assets: seq<Asset>, id: string): (r: Option<Asset>)
    ensures r.None? <==> forall i :: 0 <= i < |assets| ==> assets[i].id != id
    ensures r.Some? ==> exists k :: 0 <= k < |assets| && assets[k] == r.value && r.value.id == id &&
                                    forall j :: 0 <= j < k ==> assets[j].id != id
  {
    Find(assets, (a: Asset) => a.id == id)
  }

  /** `getAssetsByTag`: in order, the assets whose tag list contains `tag` exactly. */
  function AssetsByTag(assets: seq<Asset>, tag: string): (r: seq<Asset>)
    ensures forall a :: a in r <==> a in assets && tag in a.tags
    ensures forall a {:trigger multiset(r)[a]} :: multiset(r)[a] == if tag in a.tags then multiset(assets)[a] else 0
    ensures IsSubsequence(r, assets)
  {
    Filter(assets, (a: Asset) => tag in a.tags)
  }
}
