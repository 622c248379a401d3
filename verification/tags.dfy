/**
 Normalising task tags (`normalize_tags` and `clean_tag` of
 apps/api/src/mutation.rs), and when a normalised list passes the check that it
 is normalised.
 */
module TagRules {
  import opened Prelude
  import opened Mutations

  const MAX_TAGS := 20
  const MAX_TAG_LENGTH := 32

  // ---------------------------------------------------------------------
  // One tag
  // ---------------------------------------------------------------------

  /** Runs of white space as one space, none at either end. */
  function Squeezed(s: string): string
    decreases |s|
  {
    if s == [] then []
    else
      var front, last := Squeezed(s[..|s| - 1]), s[|s| - 1];
      if Whitespace(last) then front
      else if front != [] && |s| > 1 && Whitespace(s[|s| - 2]) then front + [' ', last]
      else front + [last]
  }

  function TrimStart(s: string): string
    decreases |s|
  {
    if s != [] && Whitespace(s[0]) then TrimStart(s[1..]) else s
  }

  function TrimEnd(s: string): string
    decreases |s|
  {
    if s != [] && Whitespace(s[|s| - 1]) then TrimEnd(s[..|s| - 1]) else s
  }

  function Trim(s: string): string {
    TrimEnd(TrimStart(s))
  }

  /** One leading # taken off. */
  function Stripped(s: string): string {
    if s != [] && s[0] == '#' then s[1..] else s
  }

  function Clean(s: string): string {
    Trim(Stripped(Trim(Squeezed(s))))
  }

  /** `clean_tag`. */
  method CleanTag(value: string) returns (tag: string)
    ensures tag == Clean(value)
  {
    var cleaned := "";
    var pendingSpace := false;
    for i := 0 to |value|
      invariant cleaned == Squeezed(value[..i])
      invariant pendingSpace == (i > 0 && Whitespace(value[i - 1]) && cleaned != "")
    {
      var c := if value[i] in {'\r', '\n', '\t'} then ' ' else value[i];
      assert value[..i + 1][..i] == value[..i];
      if Whitespace(c) {
        if cleaned != "" {
          pendingSpace := true;
        }
        continue;
      }
      if pendingSpace && cleaned != "" {
        cleaned := cleaned + [' '];
      }
      pendingSpace := false;
      cleaned := cleaned + [c];
    }
    assert value[..|value|] == value;
    SqueezedIsTight(value);
    TightStaysTrimmed(cleaned);
    tag := Trim(Stripped(Trim(cleaned)));
  }

  /** No white space at the ends, no two in a row, and only spaces. */
  ghost predicate Tight(s: string) {
    && (s != [] ==> !Whitespace(s[0]) && !Whitespace(s[|s| - 1]))
    && (forall i | 0 <= i < |s| - 1 :: !(Whitespace(s[i]) && Whitespace(s[i + 1])))
    && (forall i | 0 <= i < |s| && Whitespace(s[i]) :: s[i] == ' ')
  }

  lemma {:induction false} SqueezedIsTight(s: string)
    ensures Tight(Squeezed(s))
    decreases |s|
  {
    if s != [] {
      SqueezedIsTight(s[..|s| - 1]);
    }
  }

  lemma {:induction false} TightStaysTrimmed(s: string)
    requires Tight(s)
    ensures Trim(s) == s
  {
  }

  /** A tight text is already squeezed. */
  lemma {:induction false} TightIsSqueezed(s: string)
    requires Tight(s)
    ensures Squeezed(s) == s
    decreases |s|
  {
    if |s| == 1 {
      assert s[..0] == [];
    } else if |s| > 1 {
      var n := |s| - 1;
      if Whitespace(s[n - 1]) {
        assert n >= 2 && !Whitespace(s[n - 2]);
        TightPrefix(s, n - 1);
        TightIsSqueezed(s[..n - 1]);
        SpaceSqueezed(s);
      } else {
        TightPrefix(s, n);
        TightIsSqueezed(s[..n]);
        hide Tight;
        assert s == s[..n] + [s[n]];
      }
    }
  }

  lemma {:induction false} TightPrefix(s: string, n: nat)
    requires Tight(s) && n <= |s| && (n > 0 ==> !Whitespace(s[n - 1]))
    ensures Tight(s[..n])
  {
    assert forall i | 0 <= i < n :: s[..n][i] == s[i];
  }

  /** A single space before the last character is kept. */
  lemma {:induction false} SpaceSqueezed(s: string)
    requires Tight(s) && |s| > 2 && Whitespace(s[|s| - 2]) && Squeezed(s[..|s| - 2]) == s[..|s| - 2]
    ensures Squeezed(s) == s
  {
    hide Squeezed, Whitespace;
    var n := |s| - 1;
    var front := s[..n - 1];
    assert s[..n] == front + [s[n - 1]] && s == s[..n] + [s[n]];
    assert s[n - 1] == ' ' && !Whitespace(s[n]);
    SqueezedNext(front, s[n - 1]);
    SqueezedNext(s[..n], s[n]);
    assert front + [' ', s[n]] == s;
  }

  lemma {:induction false} SqueezedNext(front: string, c: char)
    ensures Squeezed(front + [c])
         == if Whitespace(c) then Squeezed(front)
            else if Squeezed(front) != [] && front != [] && Whitespace(front[|front| - 1])
              then Squeezed(front) + [' ', c]
            else Squeezed(front) + [c]
  {
    assert (front + [c])[..|front|] == front;
  }

  lemma {:induction false} CleanIsTight(s: string)
    ensures Tight(Clean(s)) && |Clean(s)| <= |Squeezed(s)|
    ensures Clean(s) == if Squeezed(s) != [] && Squeezed(s)[0] == '#' then TrimStart(Squeezed(s)[1..]) else Squeezed(s)
  {
    SqueezedIsTight(s);
    var t := Squeezed(s);
    TightStaysTrimmed(t);
    if t != [] && t[0] == '#' {
      var r := t[1..];
      if r != [] && Whitespace(r[0]) {
        assert |r| >= 2 && r[1] == t[2] && !Whitespace(t[2]);
        assert TrimStart(r) == r[1..];
        assert Tight(r[1..]);
        TightStaysTrimmed(r[1..]);
      } else {
        assert Tight(r);
        TightStaysTrimmed(r);
      }
    }
  }

  /** Cleaning a clean tag again changes it exactly when it still starts with #. */
  lemma {:induction false} CleanTwice(s: string)
    ensures Clean(Clean(s)) == Clean(s) <==> !(Clean(s) != [] && Clean(s)[0] == '#')
  {
    var t := Clean(s);
    CleanIsTight(s);
    CleanIsTight(t);
    TightIsSqueezed(t);
    TrimStartShrinks(if t == [] then [] else t[1..]);
  }

  lemma {:induction false} TrimStartShrinks(s: string)
    ensures |TrimStart(s)| <= |s|
    decreases |s|
  {
    if s != [] && Whitespace(s[0]) {
      TrimStartShrinks(s[1..]);
    }
  }

  // ---------------------------------------------------------------------
  // All tags
  // ---------------------------------------------------------------------

  predicate SeenIn(tags: seq<string>, lower: string -> string, key: string) {
    exists i :: 0 <= i < |tags| && lower(tags[i]) == key
  }

  /** The first spelling of each tag; `lower` is Unicode lower-casing. */
  function Normalized(raw: seq<string>, lower: string -> string): Option<seq<string>>
    decreases |raw|
  {
    if raw == [] then Some([])
    else
      var front, tag := Normalized(raw[..|raw| - 1], lower), Clean(raw[|raw| - 1]);
      if front.None? || '\0' in tag || tag == [] || |tag| > MAX_TAG_LENGTH then None
      else if SeenIn(front.value, lower, lower(tag)) then front
      else if |front.value| + 1 > MAX_TAGS then None
      else Some(front.value + [tag])
  }

  lemma {:induction false} NormalizedPrefix(raw: seq<string>, lower: string -> string, i: nat)
    requires i <= |raw| && Normalized(raw[..i], lower).None?
    ensures Normalized(raw, lower).None?
    decreases |raw|
  {
    if i < |raw| {
      assert raw[..|raw| - 1][..i] == raw[..i];
      NormalizedPrefix(raw[..|raw| - 1], lower, i);
    } else {
      assert raw[..i] == raw;
    }
  }

  /** One more tag. */
  lemma {:induction false} NormalizedNext(raw: seq<string>, lower: string -> string, i: nat)
    requires i < |raw|
    ensures Normalized(raw[..i + 1], lower)
         == var front, tag := Normalized(raw[..i], lower), Clean(raw[i]);
            if front.None? || '\0' in tag || tag == [] || |tag| > MAX_TAG_LENGTH then None
            else if SeenIn(front.value, lower, lower(tag)) then front
            else if |front.value| + 1 > MAX_TAGS then None
            else Some(front.value + [tag])
  {
    hide Clean;
    assert raw[..i + 1][..i] == raw[..i];
  }

  /** `normalize_tags`. */
  method NormalizeTags(raw: seq<string>, lower: string -> string) returns (result: Option<seq<string>>)
    ensures result == Normalized(raw, lower)
  {
    var seen: set<string> := {};
    var tags: seq<string> := [];
    for i := 0 to |raw|
      invariant Normalized(raw[..i], lower) == Some(tags)
      invariant forall key :: key in seen <==> SeenIn(tags, lower, key)
    {
      NormalizedNext(raw, lower, i);
      hide Normalized, Clean, SeenIn;
      var tag := CleanTag(raw[i]);
      if '\0' in tag || tag == "" || |tag| > MAX_TAG_LENGTH {
        NormalizedPrefix(raw, lower, i + 1);
        return None;
      }
      var key := lower(tag);
      if key !in seen {
        ghost var before := tags;
        seen := seen + {key};
        tags := tags + [tag];
        if |tags| > MAX_TAGS {
          NormalizedPrefix(raw, lower, i + 1);
          return None;
        }
        forall k ensures k in seen <==> SeenIn(tags, lower, k) {
          SeenAppend(before, tag, lower, k);
        }
      }
    }
    assert raw[..|raw|] == raw;
    return Some(tags);
  }

  lemma {:induction false} SeenAppend(tags: seq<string>, tag: string, lower: string -> string, key: string)
    ensures SeenIn(tags + [tag], lower, key) <==> SeenIn(tags, lower, key) || lower(tag) == key
  {
    var more := tags + [tag];
    if SeenIn(tags, lower, key) {
      var i :| 0 <= i < |tags| && lower(tags[i]) == key;
      assert lower(more[i]) == key;
    }
    if lower(tag) == key {
      assert lower(more[|tags|]) == key;
    }
  }

  /** What a normalised list is: clean, non-empty, short tags without NUL, no two
      alike but for case, and not too many. */
  ghost predicate Canonical(tags: seq<string>, lower: string -> string) {
    && |tags| <= MAX_TAGS
    && (forall i | 0 <= i < |tags| :: tags[i] != [] && |tags[i]| <= MAX_TAG_LENGTH && '\0' !in tags[i])
    && (forall i, j | 0 <= i < j < |tags| :: lower(tags[i]) != lower(tags[j]))
  }

  lemma {:induction false} NormalizedIsCanonical(raw: seq<string>, lower: string -> string)
    requires Normalized(raw, lower).Some?
    ensures Canonical(Normalized(raw, lower).value, lower)
    decreases |raw|
  {
    hide Clean;
    if raw != [] {
      NormalizedIsCanonical(raw[..|raw| - 1], lower);
    }
  }

  ghost predicate CleanedFrom(raw: seq<string>, tag: string) {
    exists j :: 0 <= j < |raw| && tag == Clean(raw[j])
  }

  lemma {:induction false} CleanedFromMore(raw: seq<string>, n: nat, tag: string)
    requires n <= |raw| && CleanedFrom(raw[..n], tag)
    ensures CleanedFrom(raw, tag)
  {
    hide Clean;
    var j :| 0 <= j < n && tag == Clean(raw[..n][j]);
    assert raw[..n][j] == raw[j];
  }

  /** Every normalised tag is one of the given ones, cleaned. */
  lemma {:induction false} NormalizedOrigin(raw: seq<string>, lower: string -> string)
    requires Normalized(raw, lower).Some?
    ensures var tags := Normalized(raw, lower).value;
            && |tags| <= |raw|
            && (forall i | 0 <= i < |tags| :: CleanedFrom(raw, tags[i]))
            && (|tags| == |raw| ==> forall i | 0 <= i < |raw| :: tags[i] == Clean(raw[i]))
    decreases |raw|
  {
    hide Clean;
    if raw != [] {
      var n := |raw| - 1;
      NormalizedOrigin(raw[..n], lower);
      var front, tags := Normalized(raw[..n], lower).value, Normalized(raw, lower).value;
      hide Normalized;
      forall i | 0 <= i < |tags| ensures CleanedFrom(raw, tags[i]) {
        if i < |front| {
          CleanedFromMore(raw, n, front[i]);
        } else {
          assert tags[i] == Clean(raw[n]);
        }
      }
    }
  }

  lemma {:induction false} NormalizedNone(lower: string -> string)
    ensures Normalized([], lower) == Some([])
  {
  }

  /** A clean tag unlike the ones before it is kept. */
  lemma {:induction false} NormalizedNew(front: seq<string>, tag: string, lower: string -> string)
    requires Normalized(front, lower) == Some(front) && |front| < MAX_TAGS
    requires Clean(tag) == tag && '\0' !in tag && tag != [] && |tag| <= MAX_TAG_LENGTH
    requires forall i | 0 <= i < |front| :: lower(front[i]) != lower(tag)
    ensures Normalized(front + [tag], lower) == Some(front + [tag])
  {
    hide Clean;
    assert (front + [tag])[..|front|] == front;
  }

  lemma {:induction false} CanonicalPrefix(tags: seq<string>, lower: string -> string, n: nat)
    requires n <= |tags| && Canonical(tags, lower)
    requires forall i | 0 <= i < |tags| :: Clean(tags[i]) == tags[i]
    ensures Normalized(tags[..n], lower) == Some(tags[..n])
    decreases n
  {
    hide Clean, Normalized;
    if n == 0 {
      NormalizedNone(lower);
    } else {
      CanonicalPrefix(tags, lower, n - 1);
      assert tags[..n] == tags[..n - 1] + [tags[n - 1]];
      NormalizedNew(tags[..n - 1], tags[n - 1], lower);
    }
  }

  predicate StartsWithHash(tag: string) {
    tag != [] && tag[0] == '#'
  }

  /** Normalised tags pass the check that they are normalised, and so are stored,
      exactly when none of them still starts with #. */
  lemma {:induction false} NormalizedAreAccepted(raw: seq<string>, lower: string -> string)
    requires Normalized(raw, lower).Some?
    ensures var tags := Normalized(raw, lower).value;
            Normalized(tags, lower) == Some(tags) <==> forall i | 0 <= i < |tags| :: !StartsWithHash(tags[i])
  {
    NormalizedIsCanonical(raw, lower);
    NormalizedOrigin(raw, lower);
    var tags := Normalized(raw, lower).value;
    hide Normalized, Clean;
    forall i | 0 <= i < |tags| ensures Clean(tags[i]) == tags[i] <==> !StartsWithHash(tags[i]) {
      assert CleanedFrom(raw, tags[i]);
      var j :| 0 <= j < |raw| && tags[i] == Clean(raw[j]);
      CleanTwice(raw[j]);
    }
    if forall i | 0 <= i < |tags| :: !StartsWithHash(tags[i]) {
      CanonicalPrefix(tags, lower, |tags|);
      assert tags[..|tags|] == tags;
    }
    if Normalized(tags, lower) == Some(tags) {
      NormalizedOrigin(tags, lower);
    }
  }

  /** Once one # is taken off a raw tag, another one comes first. */
  predicate HashedTwice(raw: string) {
    StartsWithHash(Squeezed(raw)) && StartsWithHash(TrimStart(Squeezed(raw)[1..]))
  }

  lemma {:induction false} HashIsLeft(raw: string)
    ensures StartsWithHash(Clean(raw)) <==> HashedTwice(raw)
  {
    CleanIsTight(raw);
    hide Clean, Squeezed, TrimStart;
  }

  /** Lower-casing neither makes nor takes away a leading #. */
  ghost predicate KeepsHash(lower: string -> string) {
    forall tag :: StartsWithHash(lower(tag)) <==> StartsWithHash(tag)
  }

  lemma {:induction false} KeyIsKept(raw: seq<string>, lower: string -> string, j: nat)
    requires Normalized(raw, lower).Some? && j < |raw|
    ensures SeenIn(Normalized(raw, lower).value, lower, lower(Clean(raw[j])))
    decreases |raw|
  {
    hide Clean;
    var front := Normalized(raw[..|raw| - 1], lower).value;
    var tag := Clean(raw[|raw| - 1]);
    SeenAppend(front, tag, lower, lower(Clean(raw[j])));
    if j < |raw| - 1 {
      KeyIsKept(raw[..|raw| - 1], lower, j);
    }
  }

  /** In the tags as they were given: the list that was accepted and normalised
      is refused when stored exactly if a # is left on one of them. */
  lemma {:induction false} AcceptedAsGiven(raw: seq<string>, lower: string -> string)
    requires Normalized(raw, lower).Some? && KeepsHash(lower)
    ensures var tags := Normalized(raw, lower).value;
            Normalized(tags, lower) == Some(tags) <==> forall j | 0 <= j < |raw| :: !HashedTwice(raw[j])
  {
    NormalizedAreAccepted(raw, lower);
    NormalizedOrigin(raw, lower);
    var tags := Normalized(raw, lower).value;
    hide Normalized, Clean, HashedTwice, StartsWithHash;
    forall i | 0 <= i < |tags|
      ensures exists j :: 0 <= j < |raw| && (StartsWithHash(tags[i]) <==> HashedTwice(raw[j]))
    {
      assert CleanedFrom(raw, tags[i]);
      var j :| 0 <= j < |raw| && tags[i] == Clean(raw[j]);
      HashIsLeft(raw[j]);
    }
    forall j | 0 <= j < |raw|
      ensures exists i :: 0 <= i < |tags| && (StartsWithHash(tags[i]) <==> HashedTwice(raw[j]))
    {
      KeyIsKept(raw, lower, j);
      HashIsLeft(raw[j]);
      var i :| 0 <= i < |tags| && lower(tags[i]) == lower(Clean(raw[j]));
    }
  }

  lemma {:induction false} SingleTag(s: string, lower: string -> string)
    requires Clean(s) != [] && |Clean(s)| <= MAX_TAG_LENGTH && '\0' !in Clean(s)
    ensures Normalized([s], lower) == Some([Clean(s)])
  {
    hide Clean;
    assert [s][..|[s]| - 1] == [] && [s][|[s]| - 1] == s;
    NormalizedNone(lower);
    var none: seq<string> := [];
    assert !SeenIn(none, lower, lower(Clean(s)));
    assert none + [Clean(s)] == [Clean(s)];
  }

  /** Such a tag. */
  lemma {:induction false} TwoHashes(lower: string -> string)
    ensures Normalized(["##a"], lower) == Some(["#a"]) && Normalized(["#a"], lower) == Some(["a"])
  {
    OneHashGoes("##a");
    OneHashGoes("#a");
    hide Clean, Normalized;
    assert "##a"[1..] == "#a" && "#a"[1..] == "a";
    SingleTag("##a", lower);
    SingleTag("#a", lower);
  }

  lemma {:induction false} OneHashGoes(s: string)
    requires Tight(s) && StartsWithHash(s) && |s| >= 2 && !Whitespace(s[1])
    ensures Clean(s) == s[1..]
  {
    TightIsSqueezed(s);
    CleanIsTight(s);
    hide Squeezed, Tight;
  }
}
