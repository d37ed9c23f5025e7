/** Values shared by both configuration sources: the opaque blob, the
    key/value record handed to the host framework, and the errors the
    sources and watchers report. */
module ConfigCommon {

  type Byte = bv8

  /** An encoded configuration document (JSON, YAML, ...); never inspected. */
  type Blob = seq<Byte>

  /** The fixed key of every record either source emits. */
  const ConfigKey: string := "config"

  const JsonFormat: string := "json"
  const YamlFormat: string := "yaml"

  /** The host framework's key/value record: a key, the blob, its format tag. */
  datatype KeyValue = KeyValue(key: string, value: Blob, format: string)

  /** One constructor per failure the sources report. */
  datatype Error =
    | RepeatWatch        // Watch on a source that already holds a watcher
    | NotWatching        // Update on a source that was never watched
    | UpdateAfterStop    // update on a watcher that was stopped
    | StopAfterStop      // Stop on a watcher that was stopped
    | Canceled           // Next on a cancelled watcher

  /** The `error` result of a call that returns nothing else. */
  datatype Status = Ok | Fail(error: Error)

  /** A `(value, error)` pair where exactly one side is meaningful. */
  datatype Result<T> = Success(value: T) | Failure(error: Error)

  datatype Option<T> = None | Some(value: T)

  /** The one-element record list that Load and Next return. */
  function SingleRecord(data: Blob, format: string): (r: seq<KeyValue>)
    ensures |r| == 1
    ensures r[0].key == ConfigKey && r[0].value == data && r[0].format == format
  {
    [KeyValue(ConfigKey, data, format)]
  }

  /** The blobs carried by a list of records, in order. */
  function Values(kvs: seq<KeyValue>): (vs: seq<Blob>)
    ensures |vs| == |kvs|
    ensures forall i :: 0 <= i < |kvs| ==> vs[i] == kvs[i].value
  {
    if kvs == [] then [] else [kvs[0].value] + Values(kvs[1..])
  }
}
