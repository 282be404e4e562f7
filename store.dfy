/**
 * The vector database the handlers talk to, reduced to the state they change:
 * named collections (memory banks), each with its vector configuration, its
 * points by id and its payload indexes. Similarity search is not modelled here:
 * its ranking is opaque, and the handlers receive its answer as an input.
 */
module Store {
  import opened Wrappers

  /** An embedding vector; its components are opaque numbers. */
  type Vector = seq<real>

  datatype Distance = Cosine | Euclid | Dot | Manhattan

  /** A payload value as the handlers write it: a string, a list of strings or an integer. */
  datatype Value = Text(s: string) | TextList(items: seq<string>) | Number(n: int)

  type Payload = map<string, Value>

  datatype Point = Point(vector: Vector, payload: Payload)

  /** A memory bank: vector size and distance, points by id, and the indexed payload fields in creation order. */
  datatype Collection = Collection(size: int, distance: Distance, points: map<string, Point>, indexes: seq<string>)

  /** The failures of the store operations. */
  datatype StoreError =
    | NotFound(name: string)
    | AlreadyExists(name: string)
    | BadSize(size: int)
    | WrongDimension(expected: int, got: int)

  /** The text of a store failure, as str(e) gives it to the handlers (wording of the model). */
  function Message(e: StoreError): string
  {
    match e
    case NotFound(name) => "Not found: Collection `" + name + "` doesn't exist!"
    case AlreadyExists(name) => "Wrong input: Collection `" + name + "` already exists!"
    case BadSize(_) => "Validation error: vector size must be at least 1"
    case WrongDimension(_, _) => "Wrong input: Vector dimension error"
  }

  class VectorStore {
    var collections: map<string, Collection>

    constructor ()
      ensures collections == map[]
    {
      collections := map[];
    }

    /** get_collection: the bank's description, or NotFound. */
    method GetCollection(name: string) returns (r: Result<Collection, StoreError>)
      ensures name in collections ==> r == Ok(collections[name])
      ensures name !in collections ==> r == Err(NotFound(name))
    {
      if name in collections {
        r := Ok(collections[name]);
      } else {
        r := Err(NotFound(name));
      }
    }

    /** create_collection: a new, empty bank; an existing name or a size below 1 is refused. */
    method CreateCollection(name: string, size: int, distance: Distance) returns (r: Outcome<StoreError>)
      modifies this
      ensures name in old(collections) ==> r == Fail(AlreadyExists(name))
      ensures name !in old(collections) && size < 1 ==> r == Fail(BadSize(size))
      ensures name !in old(collections) && size >= 1 ==> r == Pass
      ensures r.Pass? ==> collections == old(collections)[name := Collection(size, distance, map[], [])]
      ensures r.Fail? ==> collections == old(collections)
    {
      if name in collections {
        r := Fail(AlreadyExists(name));
      } else if size < 1 {
        r := Fail(BadSize(size));
      } else {
        collections := collections[name := Collection(size, distance, map[], [])];
        r := Pass;
      }
    }

    /** create_payload_index: the field is indexed from now on (indexing it again changes nothing). */
    method CreatePayloadIndex(name: string, field: string) returns (r: Outcome<StoreError>)
      modifies this
      ensures r == if name in old(collections) then Pass else Fail(NotFound(name))
      ensures r.Pass? ==>
        var c := old(collections)[name];
        collections == old(collections)[name := c.(indexes := if field in c.indexes then c.indexes else c.indexes + [field])]
      ensures r.Fail? ==> collections == old(collections)
    {
      if name in collections {
        var c := collections[name];
        collections := collections[name := c.(indexes := if field in c.indexes then c.indexes else c.indexes + [field])];
        r := Pass;
      } else {
        r := Fail(NotFound(name));
      }
    }

    /** delete_collection: the bank and all its points are gone. */
    method DeleteCollection(name: string) returns (r: Outcome<StoreError>)
      modifies this
      ensures r == if name in old(collections) then Pass else Fail(NotFound(name))
      ensures collections == old(collections) - {name}
    {
      if name in collections {
        collections := collections - {name};
        r := Pass;
      } else {
        r := Fail(NotFound(name));
      }
    }

    /** delete with a list of point ids: those points leave the bank; ids it does not hold are ignored. */
    method DeletePoints(name: string, ids: seq<string>) returns (r: Outcome<StoreError>)
      modifies this
      ensures r == if name in old(collections) then Pass else Fail(NotFound(name))
      ensures r.Pass? ==>
        var c := old(collections)[name];
        collections == old(collections)[name := c.(points := c.points - set i | i in ids)]
      ensures r.Fail? ==> collections == old(collections)
    {
      if name in collections {
        var c := collections[name];
        collections := collections[name := c.(points := c.points - set i | i in ids)];
        r := Pass;
      } else {
        r := Fail(NotFound(name));
      }
    }

    /** upsert of one point: inserted, or replaced whole, when its vector has the bank's size. */
    method Upsert(name: string, id: string, point: Point) returns (r: Outcome<StoreError>)
      modifies this
      ensures name !in old(collections) ==> r == Fail(NotFound(name))
      ensures name in old(collections) && |point.vector| != old(collections)[name].size ==>
        r == Fail(WrongDimension(old(collections)[name].size, |point.vector|))
      ensures name in old(collections) && |point.vector| == old(collections)[name].size ==> r == Pass
      ensures r.Pass? ==>
        var c := old(collections)[name];
        collections == old(collections)[name := c.(points := c.points[id := point])]
      ensures r.Fail? ==> collections == old(collections)
    {
      if name !in collections {
        r := Fail(NotFound(name));
      } else if |point.vector| != collections[name].size {
        r := Fail(WrongDimension(collections[name].size, |point.vector|));
      } else {
        var c := collections[name];
        collections := collections[name := c.(points := c.points[id := point])];
        r := Pass;
      }
    }
  }
}
