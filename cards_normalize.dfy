/**
 * The list page's merge of a compound document into flat card records
 * (app/cards/page.tsx, inside fetchBusinessCards): every card gets, as its `tags`,
 * the attributes of the included tag resources whose string id occurs in the
 * card's relationship list, in the order of `included`.
 */
module CardsNormalize {
  import opened BusinessCardTypes

  /** `relationships.tags.data.map(tag => tag.id)`. */
  function RelationshipIds(card: CardResource): (ids: seq<string>)
    ensures |ids| == |card.tagRefs|
  {
    seq(|card.tagRefs|, i requires 0 <= i < |card.tagRefs| => card.tagRefs[i].id)
  }

  /** `included.filter(tag => ids.includes(tag.id)).map(tag => tag.attributes)`. */
  function TagsFor(included: seq<TagResource>, ids: seq<string>): (tags: seq<Tag>)
    ensures |tags| <= |included|
  {
    if included == [] then []
    else (if included[0].id in ids then [included[0].attributes] else []) + TagsFor(included[1..], ids)
  }

  /** One record per card resource, in order, carrying the resolved tags. */
  function Normalize(doc: CardsDocument): (cards: seq<BusinessCard>)
    ensures |cards| == |doc.data|
    ensures forall i | 0 <= i < |cards| ::
      cards[i].(tags := doc.data[i].attributes.tags) == doc.data[i].attributes
  {
    seq(|doc.data|, i requires 0 <= i < |doc.data| =>
      doc.data[i].attributes.(tags := TagsFor(doc.included, RelationshipIds(doc.data[i]))))
  }

  // ---------------------------------------------------------------------------

  /**
   * Card i carries a tag exactly when some included resource whose id is in
   * card i's own relationship list has that tag as its attributes.
   */
  lemma NormalizeTags(doc: CardsDocument, i: nat, t: Tag)
    requires i < |doc.data|
    ensures t in Normalize(doc)[i].tags <==>
      exists j | 0 <= j < |doc.included| ::
        doc.included[j].id in RelationshipIds(doc.data[i]) && doc.included[j].attributes == t
  {
    TagsForMembers(doc.included, RelationshipIds(doc.data[i]), t);
  }

  /**
   * A tag is attached exactly when some included resource with a listed id
   * carries it: ids missing from `included` contribute nothing.
   */
  lemma {:induction false} TagsForMembers(included: seq<TagResource>, ids: seq<string>, t: Tag)
    ensures t in TagsFor(included, ids) <==>
      exists j | 0 <= j < |included| :: included[j].id in ids && included[j].attributes == t
  {
    if included != [] {
      TagsForMembers(included[1..], ids, t);
      if t in TagsFor(included, ids) && !(included[0].id in ids && included[0].attributes == t) {
        var j :| 0 <= j < |included[1..]| && included[1..][j].id in ids && included[1..][j].attributes == t;
        assert included[j + 1].id in ids && included[j + 1].attributes == t;
      }
      if exists j | 0 <= j < |included| :: included[j].id in ids && included[j].attributes == t {
        var j :| 0 <= j < |included| && included[j].id in ids && included[j].attributes == t;
        if j > 0 {
          assert included[1..][j - 1] == included[j];
        }
      }
    }
  }

  /** Resolution keeps the order of `included`: it splits over any cut of that list. */
  lemma {:induction false} TagsForConcat(a: seq<TagResource>, b: seq<TagResource>, ids: seq<string>)
    ensures TagsFor(a + b, ids) == TagsFor(a, ids) + TagsFor(b, ids)
  {
    if a == [] {
      assert a + b == b;
    } else {
      var head := if a[0].id in ids then [a[0].attributes] else [];
      assert (a + b)[0] == a[0] && (a + b)[1..] == a[1..] + b;
      assert TagsFor(a + b, ids) == head + TagsFor(a[1..] + b, ids);
      TagsForConcat(a[1..], b, ids);
      assert TagsFor(a, ids) == head + TagsFor(a[1..], ids);
    }
  }

  /** Only the set of related ids matters, not their order or repetitions. */
  lemma {:induction false} TagsForIdSet(included: seq<TagResource>, ids: seq<string>, ids': seq<string>)
    requires forall x :: x in ids <==> x in ids'
    ensures TagsFor(included, ids) == TagsFor(included, ids')
  {
    if included != [] {
      TagsForIdSet(included[1..], ids, ids');
    }
  }

  /** A card with an empty relationship list gets an empty tag list. */
  lemma {:induction false} TagsForNoIds(included: seq<TagResource>)
    ensures TagsFor(included, []) == []
  {
    if included != [] {
      TagsForNoIds(included[1..]);
    }
  }

  /** The worked example: relationships {4, 7} against included {4, 7, 9} gives tags 4 then 7. */
  lemma TagsForExample(t4: Tag, t7: Tag, t9: Tag)
    ensures TagsFor([TagResource("4", "tag", t4), TagResource("7", "tag", t7), TagResource("9", "tag", t9)], ["7", "4"])
      == [t4, t7]
  {
    var included := [TagResource("4", "tag", t4), TagResource("7", "tag", t7), TagResource("9", "tag", t9)];
    var ids := ["7", "4"];
    assert "9" !in ids;
    assert TagsFor(included[2..], ids) == [];
    assert TagsFor(included[1..], ids) == [t7];
  }
}
