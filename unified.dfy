/**
 * The canonical draft every adapter produces: source, external id and
 * timestamp are required, name and value optional, and the source tag is
 * lower-cased whenever a draft is constructed.
 */
module Unified {
  import opened Wrappers
  import opened Text
  import opened Models

  datatype Draft = Draft(
    source: string,
    externalId: string,
    name: Option<string>,
    value: Option<int>,
    timestamp: Instant)

  /** Constructing a draft: the validator lower-cases the source tag. */
  function MakeDraft(
    source: string, externalId: string, name: Option<string>, value: Option<int>, timestamp: Instant
  ): (d: Draft)
    ensures d.source == Lower(source)
    ensures IsLower(d.source) && |d.source| == |source|
    ensures IsLower(source) ==> d.source == source
    ensures d.externalId == externalId && d.name == name && d.value == value && d.timestamp == timestamp
  {
    Draft(Lower(source), externalId, name, value, timestamp)
  }

  /** Every constructed draft has a lower-case source tag. */
  predicate WellFormed(d: Draft) {
    IsLower(d.source)
  }

  /** Rebuilding a draft from its own fields gives the same draft. */
  lemma RebuildIsIdentity(d: Draft)
    requires WellFormed(d)
    ensures MakeDraft(d.source, d.externalId, d.name, d.value, d.timestamp) == d
  {
    LowerOfLower(d.source);
  }
}
