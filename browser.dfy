/** The coin-id extraction applied to scraped trending pages: every `/en/coins/<id>` link,
    matched without regard to case, contributes its lower-cased id. */
module Browser {
  import opened Text

  /** The link prefix, compared after lower-casing. */
  const Prefix: string := "/en/coins/"

  /** The id class `[a-z0-9_-]` under case-insensitive matching, on ASCII. */
  predicate IdChar(ch: char) {
    ('a' <= ch <= 'z') || ('A' <= ch <= 'Z') || ('0' <= ch <= '9') || ch == '_' || ch == '-'
  }

  /** A character of a returned id: `[a-z0-9_-]`. */
  predicate LowerIdChar(ch: char) {
    ('a' <= ch <= 'z') || ('0' <= ch <= '9') || ch == '_' || ch == '-'
  }

  /** The prefix occurs at `pos`, letters compared case-insensitively. */
  predicate PrefixAt(html: string, pos: nat) {
    pos + |Prefix| <= |html| && Lower(html[pos..pos + |Prefix|]) == Prefix
  }

  /** The end of the run of id characters starting at `j`: the greedy `+`. */
  function RunEnd(html: string, j: nat): (e: nat)
    requires j <= |html|
    ensures j <= e <= |html|
    decreases |html| - j
  {
    if j == |html| || !IdChar(html[j]) then j else RunEnd(html, j + 1)
  }

  /** The pattern matches at `pos`: the prefix, then at least one id character. */
  predicate MatchAt(html: string, pos: nat) {
    PrefixAt(html, pos) && pos + |Prefix| < |html| && IdChar(html[pos + |Prefix|])
  }

  /** The group of a match at `pos`, lower-cased. */
  function IdAt(html: string, pos: nat): string
    requires MatchAt(html, pos)
  {
    Lower(html[pos + |Prefix|..RunEnd(html, pos + |Prefix|)])
  }

  /** The ids `finditer` collects from `pos` on: after a match the search resumes at the
      match's end, so matches never overlap. */
  function ScanFrom(html: string, pos: nat): set<string>
    requires pos <= |html|
    decreases |html| - pos
  {
    if pos == |html| then {}
    else if MatchAt(html, pos) then {IdAt(html, pos)} + ScanFrom(html, RunEnd(html, pos + |Prefix|))
    else ScanFrom(html, pos + 1)
  }

  /** `_extract_trending_ids(html)` as a left-to-right scanner. */
  method ExtractTrendingIds(html: string) returns (ids: set<string>)
    ensures ids == ScanFrom(html, 0)
  {
    ids := {};
    var pos := 0;
    while pos < |html|
      invariant pos <= |html|
      invariant ids + ScanFrom(html, pos) == ScanFrom(html, 0)
      decreases |html| - pos
    {
      if MatchAt(html, pos) {
        var end := pos + |Prefix|;
        while end < |html| && IdChar(html[end])
          invariant pos + |Prefix| <= end <= |html|
          invariant RunEnd(html, end) == RunEnd(html, pos + |Prefix|)
          decreases |html| - end
        {
          end := end + 1;
        }
        ids := ids + {Lower(html[pos + |Prefix|..end])};
        pos := end;
      } else {
        pos := pos + 1;
      }
    }
  }

  /** The run after a match is made of id characters and is not empty. */
  lemma {:induction false} RunIsIds(html: string, j: nat, k: nat)
    requires j <= |html| && j <= k < RunEnd(html, j)
    ensures IdChar(html[k])
    decreases |html| - j
  {
    if k > j {
      RunIsIds(html, j + 1, k);
    }
  }

  /** Every id is non-empty and made only of `[a-z0-9_-]`. */
  lemma IdAtIsLowerId(html: string, pos: nat)
    requires MatchAt(html, pos)
    ensures var id := IdAt(html, pos);
            id != "" && IsLowerText(id) && forall i :: 0 <= i < |id| ==> LowerIdChar(id[i])
  {
    var j := pos + |Prefix|;
    var run := html[j..RunEnd(html, j)];
    forall i | 0 <= i < |run|
      ensures IdChar(run[i])
    {
      RunIsIds(html, j, j + i);
    }
    LowerIsLowerText(run);
  }

  /** Every returned id is a non-empty, lower-case string over `[a-z0-9_-]`. */
  lemma {:induction false} IdsAreLowerIds(html: string, pos: nat)
    requires pos <= |html|
    ensures forall id :: id in ScanFrom(html, pos) ==>
              id != "" && IsLowerText(id) && forall i :: 0 <= i < |id| ==> LowerIdChar(id[i])
    decreases |html| - pos
  {
    if pos < |html| {
      if MatchAt(html, pos) {
        IdAtIsLowerId(html, pos);
        IdsAreLowerIds(html, RunEnd(html, pos + |Prefix|));
      } else {
        IdsAreLowerIds(html, pos + 1);
      }
    }
  }

  /** Every returned id is the lower-cased maximal run after a prefix occurrence. */
  lemma {:induction false} IdsComeFromLinks(html: string, pos: nat, id: string)
    requires pos <= |html| && id in ScanFrom(html, pos)
    ensures exists q :: pos <= q < |html| && MatchAt(html, q) && IdAt(html, q) == id
    decreases |html| - pos
  {
    if MatchAt(html, pos) && id == IdAt(html, pos) {
    } else if MatchAt(html, pos) {
      IdsComeFromLinks(html, RunEnd(html, pos + |Prefix|), id);
    } else {
      IdsComeFromLinks(html, pos + 1, id);
    }
  }

  /** A page without the prefix anywhere yields no ids. */
  lemma {:induction false} NoLinkNoIds(html: string, pos: nat)
    requires pos <= |html|
    requires forall q :: pos <= q < |html| ==> !PrefixAt(html, q)
    ensures ScanFrom(html, pos) == {}
    decreases |html| - pos
  {
    if pos < |html| {
      NoLinkNoIds(html, pos + 1);
    }
  }

  /** The empty page a failed scrape returns yields no ids. */
  lemma EmptyPageNoIds()
    ensures ScanFrom("", 0) == {}
  {
  }

  /** The first link at or after `pos` is always collected. */
  lemma {:induction false} FirstLinkCollected(html: string, pos: nat, q: nat)
    requires pos <= q < |html| && MatchAt(html, q)
    requires forall r :: pos <= r < q ==> !MatchAt(html, r)
    ensures IdAt(html, q) in ScanFrom(html, pos)
    decreases q - pos
  {
    if pos < q {
      FirstLinkCollected(html, pos + 1, q);
    }
  }

  /** A run of id characters from `j` up to a non-id character or the end of the page
      ends there. */
  lemma {:induction false} RunEndAt(html: string, j: nat, e: nat)
    requires j <= e <= |html|
    requires forall k :: j <= k < e ==> IdChar(html[k])
    requires e == |html| || !IdChar(html[e])
    ensures RunEnd(html, j) == e
    decreases e - j
  {
    if j < e {
      RunEndAt(html, j + 1, e);
    }
  }

  /** Prefix and id are matched whatever their case; the id comes back lower-cased. */
  lemma MixedCaseLink()
    ensures ScanFrom("/EN/Coins/Pepe-2", 0) == {"pepe-2"}
  {
    var html := "/EN/Coins/Pepe-2";
    assert Lower(html[0..10]) == Prefix;
    RunEndAt(html, 10, 16);
    assert Lower(html[10..16]) == "pepe-2";
  }

  /** The search resumes after a match, so an id that spells the prefix again hides the
      link inside it. */
  lemma OverlappingLinkSkipped()
    ensures ScanFrom("/en/coins/en/coins/btc", 0) == {"en"}
  {
    var html := "/en/coins/en/coins/btc";
    assert Lower(html[0..10]) == Prefix;
    RunEndAt(html, 10, 12);
    assert Lower(html[10..12]) == "en";
    forall q | 12 <= q < |html|
      ensures !PrefixAt(html, q)
    {
      if q == 12 {
        assert Lower(html[12..22])[1] == 'c';
      }
    }
    NoLinkNoIds(html, 12);
  }
}
