/** The parts of the Notion API's JSON answers that app.py reads. */
module Notion {
  import opened Wrappers
  import opened Services

  /** A rich-text item; content is t["text"]["content"], None when the item has no "text" object. */
  datatype RichText = RichText(content: Option<string>)

  /** The "file" or "external" member of a file object; url None when it has no "url" key. */
  datatype FileObject = FileObject(url: Option<string>)

  /** A file object: its "type", and its "file" (hosted) and "external" members when present. */
  datatype FileRef = FileRef(kind: string, hosted: Option<FileObject>, external: Option<FileObject>)

  /** A child block of a page, by its "type". */
  datatype Block =
    | Paragraph(richText: seq<RichText>)
    | FileBlock(file: FileRef)
    | OtherBlock(kind: string)  // any type other than "paragraph" and "file"

  /** The request for a page's children: raised, or answered with a status and the blocks. */
  datatype ChildrenResponse =
    | ChildrenRaised(error: Exception)
    | Children(status: int, blocks: seq<Block>)

  /** A page of the acting-tips database; id "" stands for a missing or empty "id". */
  datatype TipPage = TipPage(id: string, children: ChildrenResponse)

  /** A page property: its name and, when present, its "title" and "files" lists. */
  datatype Property = Property(name: string, title: Option<seq<RichText>>, files: Option<seq<FileRef>>)

  /** A page of the scene database, with its properties in their JSON order. */
  datatype ScenePage = ScenePage(properties: seq<Property>)

  /** A database query: raised, or answered with a status, the printed JSON body and its "results". */
  datatype Query<P> =
    | QueryRaised(error: Exception)
    | QueryAnswered(status: int, body: string, results: seq<P>)

  /** properties.get(name): the property of that name, None when there is none. */
  function Lookup(properties: seq<Property>, name: string): (r: Option<Property>)
    ensures r.Some? ==> r.value in properties && r.value.name == name
    ensures r.None? ==> forall p :: p in properties ==> p.name != name
  {
    if properties == [] then None
    else if properties[0].name == name then Some(properties[0])
    else Lookup(properties[1..], name)
  }
}
