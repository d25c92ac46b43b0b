/** API objects whose annotation map is a shared cell, and the stash of hub data kept in it. */
module Annotations {
  import opened GoValues

  const DATA_ANNOTATION: string := "nearnodeflash.github.io/conversion-data"

  /** The text of an annotation: either it does not decode as hub data, or it decodes to this. */
  datatype Text<+H> = Plain(text: string) | Json(decoded: H)

  /** An API object: its metadata, as far as conversion touches it, and its data. */
  class Object<D, H> {
    var name: string
    var namespace: string
    var annotations: MapCell?<Text<H>>
    var data: D

    constructor (name: string, namespace: string, annotations: MapCell?<Text<H>>, data: D)
      ensures this.name == name && this.namespace == namespace
      ensures this.annotations == annotations && this.data == data
    {
      this.name, this.namespace, this.annotations, this.data := name, namespace, annotations, data;
    }
  }

  /** What reading the stash gives. */
  datatype Stash<+H> = Missing | Malformed | Restored(data: H)

  function StashIn<H>(annotations: MapCell?<Text<H>>): Stash<H>
    reads annotations
  {
    if annotations == null || DATA_ANNOTATION !in annotations.entries then Missing
    else
      match annotations.entries[DATA_ANNOTATION]
      case Plain(_) => Malformed
      case Json(data) => Restored(data)
  }

  function StashedData<H>(s: Stash<H>): Option<H> {
    match s
    case Restored(data) => Some(data)
    case _ => None
  }

  /** Struct assignment of the metadata: the annotation map itself is not copied. */
  method CopyMeta<D, E, H>(src: Object<D, H>, dst: Object<E, H>)
    modifies dst`name, dst`namespace, dst`annotations
    ensures dst.name == src.name && dst.namespace == src.namespace
    ensures dst.annotations == src.annotations && src.annotations == old(src.annotations)
  {
    dst.name := src.name;
    dst.namespace := src.namespace;
    dst.annotations := src.annotations;
  }

  /** Stores the encoded hub data, in the object's own map when it has one and in a new map otherwise. */
  method MarshalData<D, H>(encoded: H, dst: Object<D, H>)
    modifies dst`annotations, dst.annotations
    ensures dst.annotations != null && StashIn(dst.annotations) == Restored(encoded)
    ensures old(dst.annotations) != null ==> dst.annotations == old(dst.annotations)
    ensures old(dst.annotations) == null ==> fresh(dst.annotations)
    ensures dst.annotations.entries ==
      (if old(dst.annotations) == null then map[] else old(dst.annotations.entries))[DATA_ANNOTATION := Json(encoded)]
  {
    var annotations := dst.annotations;
    if annotations == null {
      annotations := new MapCell<Text<H>>();
    }
    annotations.entries := annotations.entries[DATA_ANNOTATION := Json(encoded)];
    dst.annotations := annotations;
  }

  /** Takes the stash out of the object's map; text that does not decode is left where it is. */
  method UnmarshalData<D, H>(from: Object<D, H>) returns (stash: Stash<H>)
    modifies from.annotations
    ensures stash == old(StashIn(from.annotations))
    ensures from.annotations != null ==>
      from.annotations.entries ==
        if stash.Restored? then old(from.annotations.entries) - {DATA_ANNOTATION} else old(from.annotations.entries)
  {
    var annotations := from.annotations;
    if annotations == null || DATA_ANNOTATION !in annotations.entries {
      return Missing;
    }
    match annotations.entries[DATA_ANNOTATION] {
      case Plain(_) => return Malformed;
      case Json(data) =>
        annotations.entries := annotations.entries - {DATA_ANNOTATION};
        return Restored(data);
    }
  }
}
