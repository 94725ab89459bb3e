/** A versioned bucket: every key has a list of versions, the newest last. */
module ObjectStore {
  import opened Wrappers
  import opened UploadRows

  type Byte = x: int | 0 <= x < 256

  // Objects written while versioning is off get the version "null", which the next such write replaces.
  datatype VersionId = NullVersion | Version(number: nat)

  // `marker` is the metadata entry threadmark-upload.
  datatype Object = Object(version: VersionId, body: seq<Byte>, mime: Option<string>, marker: Option<UploadId>)

  type Store = map<Key, seq<Object>>

  function At(store: Store, key: Key): seq<Object> {
    if key in store then store[key] else []
  }

  function Without(objects: seq<Object>, version: VersionId): (rest: seq<Object>)
    ensures forall o :: o in rest <==> o in objects && o.version != version
    ensures (forall o :: o in objects ==> o.version != version) ==> rest == objects
  {
    if objects == [] then []
    else if objects[0].version == version then Without(objects[1..], version)
    else [objects[0]] + Without(objects[1..], version)
  }

  function Put(store: Store, key: Key, made: Object): Store {
    store[key := Without(At(store, key), made.version) + [made]]
  }

  function Head(store: Store, key: Key): Option<Object> {
    var objects := At(store, key);
    if objects == [] then None else Some(objects[|objects| - 1])
  }

  function Find(objects: seq<Object>, version: VersionId): (o: Option<Object>)
    ensures o.Some? ==> o.value in objects && o.value.version == version
    ensures o.None? ==> forall p :: p in objects ==> p.version != version
  {
    if objects == [] then None
    else if objects[0].version == version then Some(objects[0])
    else Find(objects[1..], version)
  }

  function Versions(store: Store, key: Key): seq<VersionId> {
    var objects := At(store, key);
    seq(|objects|, i requires 0 <= i < |objects| => objects[i].version)
  }

  function DeleteVersion(store: Store, key: Key, version: VersionId): Store {
    store[key := Without(At(store, key), version)]
  }

  lemma FirstIsIn(objects: seq<Object>)
    ensures objects == [] || objects[0] in objects
  {
  }
}
