/** The records the pipeline stages hand to each other: the facts extracted
    from a brochure and the slide plan built from them. */
module Bindings {
  import opened Wrappers

  /** The extracted facts about one property; every field is always present. */
  datatype Analysis = Analysis(
    title: string,
    location: string,
    price: string,
    landArea: string,
    buildingArea: string,
    purpose: string,
    summary: string,
    keyFeatures: seq<string>,
    nearbyFacilities: seq<string>,
    currentStatus: string)

  /** One planned slide: its title, its bullet lines and optional speaker notes. */
  datatype ProposalSlide = ProposalSlide(title: string, content: seq<string>, notes: Option<string>)

  /** The planned deck, in presentation order. */
  datatype ProposalContent = ProposalContent(slides: seq<ProposalSlide>)
}
