/** Values shared by every part of the model: Go slices, maps and optional pointers. */
module GoValues {

  datatype Option<+T> = None | Some(value: T)

  /** A Go slice as a value. The nil slice and the empty slice differ. */
  datatype Slice<+T> = Nil | Elems(elems: seq<T>) {

    /** The elements a `range` loop visits. */
    function List(): seq<T> {
      match this
      case Nil => []
      case Elems(s) => s
    }

    /** Empty without being nil: what `omitempty` forgets. */
    predicate ExplicitlyEmpty() {
      Elems? && |elems| == 0
    }

    /** What is left after a JSON round trip under `omitempty`: an empty slice comes back as nil. */
    function Canon(): Slice<T> {
      if |List()| == 0 then Nil else this
    }
  }

  /** What a slice holds; the array stands for the slice itself. */
  function SliceOf<T>(a: array?<T>): Slice<T>
    reads a
  {
    if a == null then Nil else Elems(a[..])
  }

  type Strings = Slice<string>

  /** A Go map[string]string as a value, nil or not. */
  datatype StringMap = NilMap | Entries(entries: map<string, string>) {

    function Keys(): set<string> {
      match this
      case NilMap => {}
      case Entries(m) => m.Keys
    }

    predicate ExplicitlyEmpty() {
      Entries? && entries.Keys == {}
    }

    function Canon(): StringMap {
      if Keys() == {} then NilMap else this
    }
  }

  /** The cell behind a Go map: every header copied from one points at the same cell. */
  class MapCell<V> {
    var entries: map<string, V>

    constructor ()
      ensures entries == map[]
    {
      entries := map[];
    }
  }
}
