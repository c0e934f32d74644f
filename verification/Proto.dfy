/** proto.go: the five protocol values, the four per-protocol slots the engine
    keeps (valid lists, counters), and the write-once protocol cell. */
module Proto {

  datatype Option<+T> = None | Some(value: T)

  datatype Protocol = ProtoNull | ProtoSOCKS4 | ProtoSOCKS4a | ProtoSOCKS5 | ProtoHTTP

  /** The keys of `protoMap` without ProtoNull: what the validator tries. HTTP is not among them. */
  const TRIED: set<Protocol> := {ProtoSOCKS5, ProtoSOCKS4, ProtoSOCKS4a}

  /** One slot for each protocol a proxy can be validated as. */
  datatype PerProto<T> = PerProto(v4: T, v4a: T, v5: T, http: T) {
    function Get(p: Protocol): T
      requires p != ProtoNull
    {
      match p
      case ProtoSOCKS4 => v4
      case ProtoSOCKS4a => v4a
      case ProtoSOCKS5 => v5
      case ProtoHTTP => http
    }

    function Set(p: Protocol, x: T): (r: PerProto<T>)
      requires p != ProtoNull
      ensures forall q :: q != ProtoNull ==> r.Get(q) == if q == p then x else Get(q)
    {
      match p
      case ProtoSOCKS4 => this.(v4 := x)
      case ProtoSOCKS4a => this.(v4a := x)
      case ProtoSOCKS5 => this.(v5 := x)
      case ProtoHTTP => this.(http := x)
    }
  }

  /** An atomic value guarded by a sync.Once: the value of the record's protocol cell. */
  datatype Cell = Cell(value: Protocol, fired: bool) {
    /** `set`: the first call stores, every later call does nothing. */
    function Set(p: Protocol): Cell {
      if fired then this else Cell(p, true)
    }
  }

  const FRESH_CELL := Cell(ProtoNull, false)
}
