/** The downloadable safety resources of the static catalogue
    (SAFETY_RESOURCES in constants.tsx). Only the fields the library view
    shows are kept; descriptions and icons are presentation. */
module Catalog {

  datatype Resource = Resource(id: string, title: string, category: string, fileSize: string)

  const Resources: seq<Resource> := [
    Resource("phishing-checklist", "Phishing Detection Checklist", "Checklist", "1.2 MB"),
    Resource("reporting-manual", "Cyber Crime Reporting Manual", "Manual", "2.5 MB"),
    Resource("hygiene-handbook", "Digital Hygiene Handbook", "Guide", "3.8 MB"),
    Resource("legal-cheat-sheet", "IT Act & Laws Cheat Sheet", "Legal", "1.5 MB")
  ]

  /** Ids of the awareness topics (AWARENESS_TOPICS); only their number is
      used, as the total on the home view. */
  const TopicIds: seq<string> := ["intro-social-eng", "phishing-basics", "deepfake-scams", "vishing-smishing"]

  /** No two entries of a catalogue share an id. */
  predicate DistinctIds(catalog: seq<Resource>) {
    forall i, j :: 0 <= i < j < |catalog| ==> catalog[i].id != catalog[j].id
  }

  /** Whether `id` names an entry of the catalogue. */
  predicate HasId(catalog: seq<Resource>, id: string) {
    exists r :: r in catalog && r.id == id
  }
}
