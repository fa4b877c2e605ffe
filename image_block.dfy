/** The image block: an upload area until an image is chosen, the image afterwards. */
module ImageBlock {
  import opened Wrappers
  import opened Text

  /** The attributes the editor stores on an image node. */
  datatype ImageAttrs = ImageAttrs(src: string, caption: string)

  /** What the node view renders. */
  datatype ImageView = UploadArea | Image(src: string)

  class ImageBlockView {
    var src: string
    var caption: string
    /** The node's attributes in the document. */
    var attrs: ImageAttrs

    /** The effect that copies `src` and `caption` into the node has run. */
    ghost predicate Valid()
      reads this
    {
      attrs == ImageAttrs(src, caption)
    }

    /** Mounted on a node: `src` and `caption` start from the stored ones. */
    constructor (node: ImageAttrs)
      ensures src == node.src && caption == node.caption && attrs == node
      ensures Valid()
    {
      src := node.src;
      caption := node.caption;
      attrs := node;
    }

    /** The upload area is shown exactly while there is no `src`. */
    function View(): (r: ImageView)
      reads this
      ensures r == UploadArea <==> src == []
      ensures r.Image? ==> r.src == src
    {
      if src == [] then UploadArea else Image(src)
    }

    /** A file chosen in the upload area becomes the image, through its object URL, and is
        written to the node; no file changes nothing. */
    method HandleFileUpload(file: Option<string>)
      requires src == [] && Valid()
      modifies this
      ensures caption == old(caption) && Valid()
      ensures file.Some? ==> src == ObjectUrl(file.value) && View() == Image(src)
      ensures file.None? ==> src == old(src) && attrs == old(attrs)
    {
      if file.Some? {
        src := ObjectUrl(file.value);
        attrs := ImageAttrs(src, caption);
      }
    }

    /** Enter with a non-blank `src` writes `src` to the node, which already holds it. */
    method HandleUrlSubmit(key: string)
      requires Valid()
      modifies this`attrs
      ensures key == "Enter" && Trim(src) != [] ==> attrs == old(attrs).(src := src)
      ensures attrs == old(attrs) && Valid()
    {
      if key == "Enter" && Trim(src) != [] {
        attrs := attrs.(src := src);
      }
    }
  }
}
