/** The block types every tenant starts with (internal/models/sectiontypes.go, internal/db/seed.go). */
module Starter {
  import opened Schema
  import opened Snapshots
  import opened Slug
  import opened ContentProtocol

  function Field(key: string, title: string, kind: string): FieldSpec {
    FieldSpec(key, title, kind, [], [])
  }

  function Items(title: string, fields: seq<FieldSpec>): FieldSpec {
    FieldSpec("items", title, "list", [], fields)
  }

  datatype StarterType = StarterType(key: string, block: BlockType)

  function Hero(): StarterType {
    StarterType("hero", BlockType("Hero", [
      Field("title", "Title", "heading"),
      Field("subtitle", "Subtitle", "textarea"),
      Field("button", "Button", "button"),
      Field("background_image", "Background image", "image"),
      FieldSpec("alignment", "Alignment", "select", ["left", "center", "right"], [])
    ], Layout("banner", "", "center")))
  }

  function Text(): StarterType {
    StarterType("text", BlockType("Text", [
      Field("heading", "Heading", "heading"),
      Field("body", "Body", "textarea")
    ], Layout("default", "", "")))
  }

  function Image(): StarterType {
    StarterType("image", BlockType("Image", [
      Field("image", "Image", "image"),
      Field("caption", "Caption", "text")
    ], Layout("default", "", "center")))
  }

  function Services(): StarterType {
    StarterType("services", BlockType("Services list", [
      Field("heading", "Heading", "heading"),
      Items("Services", [
        Field("image", "Image", "image"),
        Field("title", "Title", "text"),
        Field("description", "Description", "textarea")
      ])
    ], Layout("cards", "", "")))
  }

  function Gallery(): StarterType {
    StarterType("gallery", BlockType("Gallery", [
      Field("heading", "Heading", "heading"),
      Items("Images", [
        Field("image", "Image", "image"),
        Field("caption", "Caption", "text")
      ])
    ], Layout("gallery", "", "")))
  }

  function Testimonials(): StarterType {
    StarterType("testimonials", BlockType("Testimonials", [
      Field("heading", "Heading", "heading"),
      Items("Testimonials", [
        Field("quote", "Quote", "textarea"),
        Field("author", "Author", "text"),
        Field("role", "Role", "text")
      ])
    ], Layout("cards", "", "")))
  }

  function Contact(): StarterType {
    StarterType("contact", BlockType("Contact information", [
      Field("heading", "Heading", "heading"),
      Field("text", "Intro text", "textarea"),
      Field("details", "Contact details", "contact_info")
    ], Layout("default", "", "")))
  }

  function Cta(): StarterType {
    StarterType("cta", BlockType("Call to action", [
      Field("title", "Title", "heading"),
      Field("subtitle", "Subtitle", "textarea"),
      Field("button", "Button", "button")
    ], Layout("cta", "", "center")))
  }

  function Faq(): StarterType {
    StarterType("faq", BlockType("FAQ", [
      Field("heading", "Heading", "heading"),
      Items("Questions", [
        Field("question", "Question", "text"),
        Field("answer", "Answer", "textarea")
      ])
    ], Layout("accordion", "", "")))
  }

  /** The library, in the order in which a tenant is seeded. */
  function Library(): seq<StarterType> {
    [Hero(), Text(), Image(), Services(), Gallery(), Testimonials(), Contact(), Cta(), Faq()]
  }

  lemma LibraryKeys()
    ensures |Library()| == 9
    ensures Library()[0].key == "hero" && Library()[1].key == "text" && Library()[2].key == "image"
    ensures Library()[3].key == "services" && Library()[4].key == "gallery" && Library()[5].key == "testimonials"
    ensures Library()[6].key == "contact" && Library()[7].key == "cta" && Library()[8].key == "faq"
  {
  }

  /** What the handlers demand of a new block type. */
  ghost predicate Good(t: StarterType) {
    ValidSlug(Hyphened(t.key)) && GoodBlock(t.block)
  }

  lemma {:induction false} WordIsKey(key: string)
    requires forall i :: 0 <= i < |key| ==> IsLower(key[i])
    ensures Hyphened(key) == key
  {
    if key != "" {
      WordIsKey(key[1..]);
      assert key == [key[0]] + key[1..];
    }
  }

  lemma WordAndSchema(t: StarterType)
    requires 0 < |t.key| <= MAX_SLUG && forall i :: 0 <= i < |t.key| ==> IsLower(t.key[i])
    requires t.block.title != "" && ValidSchema(t.block.fields, t.block.layout)
    ensures Good(t)
  {
    WordIsKey(t.key);
    FaultlessIffValid(t.block.fields, t.block.layout);
  }

  lemma SimpleField(key: string, title: string, kind: string)
    requires GoodKey(key) && title != "" && kind in FIELD_KINDS && kind != "select" && kind != "list"
    ensures WellFormed(Field(key, title, kind), false) && WellFormed(Field(key, title, kind), true)
  {
  }

  /** Keys of different lengths, or with different first letters, are different. */
  predicate Apart(a: FieldSpec, b: FieldSpec) {
    |a.key| != |b.key| || (a.key != "" && a.key[0] != b.key[0])
  }

  lemma ListField(title: string, fields: seq<FieldSpec>)
    requires title != "" && 0 < |fields| <= MAX_SCHEMA_FIELDS
    requires forall i, j :: 0 <= i < j < |fields| ==> Apart(fields[i], fields[j])
    requires forall i :: 0 <= i < |fields| ==> WellFormed(fields[i], false)
    ensures WellFormed(Items(title, fields), true)
  {
    var key := "items";
    assert GoodKey(key);
  }

  lemma SchemaOf(fields: seq<FieldSpec>, layout: Layout)
    requires layout.variant in LAYOUT_VARIANTS && 0 < |fields| <= MAX_SCHEMA_FIELDS
    requires forall i, j :: 0 <= i < j < |fields| ==> Apart(fields[i], fields[j])
    requires forall i :: 0 <= i < |fields| ==> WellFormed(fields[i], true)
    ensures ValidSchema(fields, layout)
  {
  }

  lemma HeroIsGood()
    ensures Good(Hero())
  {
    SimpleField("title", "Title", "heading");
    SimpleField("subtitle", "Subtitle", "textarea");
    SimpleField("button", "Button", "button");
    SimpleField("background_image", "Background image", "image");
    SchemaOf(Hero().block.fields, Hero().block.layout);
    WordAndSchema(Hero());
  }

  lemma TextIsGood()
    ensures Good(Text())
  {
    SimpleField("heading", "Heading", "heading");
    SimpleField("body", "Body", "textarea");
    SchemaOf(Text().block.fields, Text().block.layout);
    WordAndSchema(Text());
  }

  lemma ImageIsGood()
    ensures Good(Image())
  {
    SimpleField("image", "Image", "image");
    SimpleField("caption", "Caption", "text");
    SchemaOf(Image().block.fields, Image().block.layout);
    WordAndSchema(Image());
  }

  lemma ServicesItems()
    ensures WellFormed(Services().block.fields[1], true)
  {
    SimpleField("image", "Image", "image");
    SimpleField("title", "Title", "text");
    SimpleField("description", "Description", "textarea");
    ListField("Services", Services().block.fields[1].fields);
  }

  lemma ServicesIsGood()
    ensures Good(Services())
  {
    SimpleField("heading", "Heading", "heading");
    ServicesItems();
    SchemaOf(Services().block.fields, Services().block.layout);
    WordAndSchema(Services());
  }

  lemma GalleryItems()
    ensures WellFormed(Gallery().block.fields[1], true)
  {
    SimpleField("image", "Image", "image");
    SimpleField("caption", "Caption", "text");
    ListField("Images", Gallery().block.fields[1].fields);
  }

  lemma GalleryIsGood()
    ensures Good(Gallery())
  {
    SimpleField("heading", "Heading", "heading");
    GalleryItems();
    SchemaOf(Gallery().block.fields, Gallery().block.layout);
    WordAndSchema(Gallery());
  }

  lemma TestimonialsItems()
    ensures WellFormed(Testimonials().block.fields[1], true)
  {
    SimpleField("quote", "Quote", "textarea");
    SimpleField("author", "Author", "text");
    SimpleField("role", "Role", "text");
    ListField("Testimonials", Testimonials().block.fields[1].fields);
  }

  lemma TestimonialsIsGood()
    ensures Good(Testimonials())
  {
    SimpleField("heading", "Heading", "heading");
    TestimonialsItems();
    SchemaOf(Testimonials().block.fields, Testimonials().block.layout);
    WordAndSchema(Testimonials());
  }

  lemma ContactIsGood()
    ensures Good(Contact())
  {
    SimpleField("heading", "Heading", "heading");
    SimpleField("text", "Intro text", "textarea");
    SimpleField("details", "Contact details", "contact_info");
    SchemaOf(Contact().block.fields, Contact().block.layout);
    WordAndSchema(Contact());
  }

  lemma CtaIsGood()
    ensures Good(Cta())
  {
    SimpleField("title", "Title", "heading");
    SimpleField("subtitle", "Subtitle", "textarea");
    SimpleField("button", "Button", "button");
    SchemaOf(Cta().block.fields, Cta().block.layout);
    WordAndSchema(Cta());
  }

  lemma FaqItems()
    ensures WellFormed(Faq().block.fields[1], true)
  {
    SimpleField("question", "Question", "text");
    SimpleField("answer", "Answer", "textarea");
    ListField("Questions", Faq().block.fields[1].fields);
  }

  lemma FaqIsGood()
    ensures Good(Faq())
  {
    SimpleField("heading", "Heading", "heading");
    FaqItems();
    SchemaOf(Faq().block.fields, Faq().block.layout);
    WordAndSchema(Faq());
  }

  ghost predicate AllGood(library: seq<StarterType>) {
    forall i :: 0 <= i < |library| ==> Good(library[i])
  }

  lemma NineGood(
    a: StarterType, b: StarterType, c: StarterType, d: StarterType, e: StarterType, f: StarterType, g: StarterType,
    h: StarterType, i: StarterType)
    requires Good(a) && Good(b) && Good(c) && Good(d) && Good(e) && Good(f) && Good(g) && Good(h) && Good(i)
    ensures AllGood([a, b, c, d, e, f, g, h, i])
  {
  }

  /** Every type of the library passes the checks of the create handler. */
  lemma LibraryIsGood()
    ensures AllGood(Library())
  {
    HeroIsGood();
    TextIsGood();
    ImageIsGood();
    ServicesIsGood();
    GalleryIsGood();
    TestimonialsIsGood();
    ContactIsGood();
    CtaIsGood();
    FaqIsGood();
    NineGood(Hero(), Text(), Image(), Services(), Gallery(), Testimonials(), Contact(), Cta(), Faq());
  }
}
