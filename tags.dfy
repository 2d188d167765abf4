// The card editor's working tag list (`addTag`, `removeTag`) and the colour a
// tag is drawn in (`getTagColor`).
module Tags {
  import JsText
  import Seqs

  /** The key `removeTag`'s filter compares: the tag itself. */
  function TagText(t: string): string { t }

  /** `addTag` accepts the input when its trimmed form is non-empty and not yet a tag. */
  predicate CanAddTag(tags: seq<string>, newTag: string) {
    JsText.Trim(newTag) != [] && JsText.Trim(newTag) !in tags
  }

  /** `addTag`'s new tag list: the trimmed input at the end when accepted, else unchanged.
      It never introduces a duplicate. */
  function AddTag(tags: seq<string>, newTag: string): (r: seq<string>)
    ensures !CanAddTag(tags, newTag) ==> r == tags
    ensures CanAddTag(tags, newTag) ==> r == tags + [JsText.Trim(newTag)]
    ensures !JsText.AllWhiteSpace(newTag) ==> JsText.Trim(newTag) in r
    ensures Seqs.NoDuplicates(tags) ==> Seqs.NoDuplicates(r)
  {
    JsText.TrimEmptyIff(newTag);
    if CanAddTag(tags, newTag) then tags + [JsText.Trim(newTag)] else tags
  }

  /** `removeTag`: every occurrence of `t` goes; the other tags stay, in order. */
  function RemoveTag(tags: seq<string>, t: string): (r: seq<string>)
    ensures t !in r
    ensures |r| == |tags| - Seqs.CountOf(tags, TagText, t)
    ensures Seqs.CountOf(tags, TagText, t) == 0 ==> r == tags
    ensures forall i :: 0 <= i < |tags| && tags[i] != t ==> tags[i] in r
    ensures Seqs.IsSubsequence(r, tags)
    ensures Seqs.NoDuplicates(tags) ==> Seqs.NoDuplicates(r)
  {
    Seqs.WithoutFacts(tags, TagText, t);
    Seqs.Without(tags, TagText, t)
  }

  /** Removing a tag that was just added gives back the list as it was. */
  lemma RemoveTagUndoesAddTag(tags: seq<string>, newTag: string)
    requires CanAddTag(tags, newTag)
    ensures RemoveTag(AddTag(tags, newTag), JsText.Trim(newTag)) == tags
  {
    var t := JsText.Trim(newTag);
    Seqs.WithoutConcat(tags, [t], TagText, t);
    assert Seqs.CountOf(tags, TagText, t) == 0;
    Seqs.WithoutAbsent(tags, TagText, t);
    assert Seqs.Without([t], TagText, t) == [];
  }

  /** Adding the same input twice is adding it once. */
  lemma AddTagIdempotent(tags: seq<string>, newTag: string)
    ensures AddTag(AddTag(tags, newTag), newTag) == AddTag(tags, newTag)
  {
    var r := AddTag(tags, newTag);
    if CanAddTag(tags, newTag) {
      assert r[|tags|] == JsText.Trim(newTag);
      assert !CanAddTag(r, newTag);
    }
  }

  /** On a list without duplicates, removing every occurrence is removing the one
      occurrence there is. */
  lemma RemoveTagOnDistinct(tags: seq<string>, k: nat)
    requires Seqs.NoDuplicates(tags) && k < |tags|
    ensures RemoveTag(tags, tags[k]) == tags[..k] + tags[k + 1..]
  {
    var t := tags[k];
    assert tags == tags[..k] + [t] + tags[k + 1..];
    NotElsewhere(tags, k);
    Seqs.WithoutOnlyAt(tags[..k], t, tags[k + 1..], TagText, t);
  }

  lemma NotElsewhere(tags: seq<string>, k: nat)
    requires Seqs.NoDuplicates(tags) && k < |tags|
    ensures Seqs.CountOf(tags[..k], TagText, tags[k]) == 0
    ensures Seqs.CountOf(tags[k + 1..], TagText, tags[k]) == 0
  {
    var before, after := tags[..k], tags[k + 1..];
    forall i | 0 <= i < |before| ensures TagText(before[i]) != tags[k] {
      assert before[i] == tags[i];
    }
    forall i | 0 <= i < |after| ensures TagText(after[i]) != tags[k] {
      assert after[i] == tags[k + 1 + i];
    }
  }

  /** `tagColors`, in order. */
  const TagColors: seq<string> := [
    "bg-blue-500", "bg-green-500", "bg-purple-500", "bg-pink-500",
    "bg-orange-500", "bg-teal-500", "bg-indigo-500", "bg-rose-500"
  ]

  /** `getTagColor`: the palette entry at the tag's code unit sum modulo the palette size.
      Always a palette colour; the empty tag, summing to 0, takes the first. */
  function TagColor(tag: string): (r: string)
    ensures r in TagColors
    ensures tag == "" ==> r == "bg-blue-500"
  {
    TagColors[JsText.CodeUnitSum(tag) % |TagColors|]
  }

  /** Tags made of the same characters in any order share a colour. */
  lemma TagColorOfAnagram(s: string, t: string)
    requires multiset(s) == multiset(t)
    ensures TagColor(s) == TagColor(t)
  {
    JsText.CodeUnitSumPermutation(s, t);
  }

  /** Appending characters whose code units sum to a multiple of eight keeps the colour. */
  lemma TagColorOfPadded(tag: string, pad: string)
    requires JsText.CodeUnitSum(pad) % 8 == 0
    ensures TagColor(tag + pad) == TagColor(tag)
  {
    PaddedSum(tag, pad);
  }

  lemma PaddedSum(tag: string, pad: string)
    requires JsText.CodeUnitSum(pad) % 8 == 0
    ensures JsText.CodeUnitSum(tag + pad) % 8 == JsText.CodeUnitSum(tag) % 8
  {
    JsText.CodeUnitSumConcat(tag, pad);
    AddMultipleOfEight(JsText.CodeUnitSum(tag), JsText.CodeUnitSum(pad));
  }

  lemma AddMultipleOfEight(a: nat, b: nat)
    requires b % 8 == 0
    ensures (a + b) % 8 == a % 8
  {
  }
}
