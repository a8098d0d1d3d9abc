/** The content bundle the generator reads (internal/models/models.go). */
module Snapshots {
  import Json
  import Schema

  datatype Settings = Settings(
    logoMediaID: string,
    primaryColor: string,
    contactPhone: string,
    contactEmail: string,
    whatsappNumber: string,
    address: string,
    socialLinks: map<string, string>,
    footerText: string,
    seoTitle: string,
    seoDescription: string,
    githubRepo: string,
    cloudflareProject: string)

  datatype Website = Website(name: string, domain: string, templateID: string, settings: Settings)

  datatype Media = Media(url: string, alt: string)

  type MediaTable = map<string, Media>

  datatype BlockType = BlockType(title: string, fields: seq<Schema.FieldSpec>, layout: Schema.Layout)

  datatype Section = Section(blockType: string, content: Json.Raw)

  datatype Page = Page(
    title: string, slug: string, seoTitle: string, seoDescription: string, sections: seq<Section>)

  datatype Snapshot = Snapshot(
    website: Website, pages: seq<Page>, media: MediaTable, blockTypes: map<string, BlockType>)

  /** The generator's media lookup: an unknown id yields empty strings. */
  function Lookup(media: MediaTable, id: string): Media {
    if id in media then media[id] else Media("", "")
  }
}
