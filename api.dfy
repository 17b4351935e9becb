/**
 * Shapes of the content-management API's payloads (src/api/index.ts).
 * They carry no behaviour; the store and the post-processing pass move them around.
 * JSON numbers that the source uses as identifiers or pixel sizes are `int`s here,
 * byte sizes are `real`s.
 */
module Api {
  import opened Wrappers

  /** A JSON value as parsed by `response.json()`. */
  datatype Json =
    | JNull
    | JBool(b: bool)
    | JNumber(n: real)
    | JString(s: string)
    | JArray(items: seq<Json>)
    | JObject(members: seq<(string, Json)>)

  /** Payloads whose interfaces are not part of this model are carried as opaque JSON. */
  type Tag = Json
  type SecondTag = Json
  type Contact = Json
  type About = Json
  type ExhibitionsAndAwards = Json
  type Manifesto = Json
  type Info = Json
  type TheyWorkWithUs = Json
  type HomeImage = Json

  datatype ImageExt = Png | Jpg | Gif

  /** One size variant of an uploaded image (`IApiImageSize`). */
  datatype ImageSize = ImageSize(
    ext: Option<ImageExt>,
    url: Option<string>,
    hash: Option<string>,
    mime: Option<string>,
    name: Option<string>,
    path: Option<string>,
    size: Option<real>,
    width: Option<int>,
    height: Option<int>)

  /** The fixed set of size variants an image may carry. */
  datatype ImageFormats = ImageFormats(
    large: Option<ImageSize>,
    small: Option<ImageSize>,
    medium: Option<ImageSize>,
    thumbnail: Option<ImageSize>)

  /** `IApiImage`; `previewUrl` and `provider_metadata` are always null and are left out. */
  datatype Image = Image(
    id: Option<int>,
    name: Option<string>,
    alternativeText: Option<string>,
    caption: Option<string>,
    width: Option<int>,
    height: Option<int>,
    formats: Option<ImageFormats>,
    hash: Option<string>,
    ext: Option<ImageExt>,
    mime: Option<string>,
    size: Option<real>,
    url: Option<string>,
    provider: Option<string>,
    createdAt: Option<string>,
    updatedAt: Option<string>)

  /** `IApiExhibition_links`: an exhibition a project was shown at. */
  datatype ExhibitionLink = ExhibitionLink(
    id: Option<int>,
    exhibitionTitle: Option<string>,
    exhibitionLink: Option<string>,
    date: Option<string>,
    partenariatDescription: Option<string>)

  /** `IApiProject`; `description` is Markdown as fetched and HTML once post-processed. */
  datatype Project = Project(
    id: int,
    description: Option<string>,
    title: Option<string>,
    publishedAt: Option<string>,
    createdAt: Option<string>,
    updatedAt: Option<string>,
    date: Option<string>,
    exhibitionLinks: Option<seq<ExhibitionLink>>,
    images: Option<seq<Image>>)

  /** JavaScript truthiness of an optional string: present and not the empty string. */
  predicate Truthy(s: Option<string>): (b: bool)
    ensures b <==> s != None && s != Some("")
  {
    s.Some? && s.value != ""
  }
}
