/** The parts catalogue: the `Part` record and the choice of the catalogue
    to search from the vehicle model. The two catalogues themselves are
    data, passed in as parameters. */
module Catalogue {
  import opened Options

  datatype Model = Celerio | Spresso | Both

  /** A catalogue entry; `priceHT` is carried along but never scored. */
  datatype Part = Part(
    reference: string, designation: string, vehicleType: string,
    priceHT: real, stock: int, model: Model)

  /** The catalogue searched for a detected model: the single catalogue of
      a Spresso or a Celerio, both of them (Spresso first) otherwise. */
  function Database(model: Option<Model>, spresso: seq<Part>, celerio: seq<Part>): (db: seq<Part>)
    ensures forall p :: p in db ==> p in spresso || p in celerio
    ensures model == Some(Spresso) ==> forall p :: p in db <==> p in spresso
    ensures model == Some(Celerio) ==> forall p :: p in db <==> p in celerio
    ensures model != Some(Spresso) && model != Some(Celerio) ==>
      |db| == |spresso| + |celerio| && forall p :: p in db <==> p in spresso || p in celerio
  {
    if model == Some(Spresso) then spresso
    else if model == Some(Celerio) then celerio
    else spresso + celerio
  }
}
