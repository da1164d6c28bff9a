/**
 * Records exchanged with the business-card API (types/BusinessCard.ts). A
 * response follows the JSON:API v1.1 compound-document shape: primary resources
 * under `data`, each with a relationship list of tag identifiers, and the tag
 * records themselves under `included`.
 */
module BusinessCardTypes {
  import opened Wrappers

  datatype Tag = Tag(
    id: int,
    name: string,
    color: Option<string>,
    description: Option<string>,
    businessCardsCount: int)

  datatype BusinessCard = BusinessCard(
    id: int,
    address: string,
    code: string,
    company: string,
    department: string,
    email: string,
    fax: string,
    firstName: string,
    firstNamePhonetic: string,
    homePhone: string,
    jobTitle: string,
    lastName: string,
    lastNamePhonetic: string,
    meetingDate: string,
    mobilePhone: string,
    notes: string,
    status: string,
    createdAt: string,
    updatedAt: string,
    frontImageUrl: string,
    backImageUrl: string,
    tags: seq<Tag>,
    website: string)

  /** A tag resource: its string id, its JSON:API type and its attributes. */
  datatype TagResource = TagResource(id: string, kind: string, attributes: Tag)

  /** A relationship entry: only the id and type of the related tag. */
  datatype ResourceId = ResourceId(id: string, kind: string)

  /** A card resource; `tagRefs` is `relationships.tags.data`. */
  datatype CardResource = CardResource(id: string, kind: string, attributes: BusinessCard, tagRefs: seq<ResourceId>)

  /** `business_cards` of the list response: primary data and included tags. */
  datatype CardsDocument = CardsDocument(data: seq<CardResource>, included: seq<TagResource>)
}
