/** The process-wide `audio_cache` of api/index.py: generated audio kept in
    memory under its id until a download takes it out. */
module AudioStore {
  import opened Wrappers

  newtype byte = b: int | 0 <= b < 256

  /** The value kept per id: the MP3 bytes, the download name and the
      creation time (seconds, as `time.time()` reports it). */
  datatype Entry = Entry(data: seq<byte>, filename: string, created: real)

  /** `AUDIO_TTL`: declared next to the cache, but no code reads it, so no
      entry ever expires. */
  const AudioTtl: nat := 300

  class AudioCache {
    var entries: map<string, Entry>

    /** The empty dict the module starts with. */
    constructor ()
      ensures entries == map[]
    {
      entries := map[];
    }

    /** `audio_cache[id] = entry`: adds the id, or overwrites its entry;
        every other id keeps its entry. */
    method Insert(id: string, e: Entry)
      modifies this
      ensures entries == old(entries)[id := e]
      ensures id in entries && entries[id] == e
      ensures forall k :: k in old(entries) && k != id ==> k in entries && entries[k] == old(entries)[k]
      ensures entries.Keys == old(entries).Keys + {id}
    {
      entries := entries[id := e];
    }

    /** The lookup behind `serve_audio`: the entry of a present id, not found
        otherwise; reading removes nothing. */
    method Serve(id: string) returns (r: Option<Entry>)
      ensures r.Some? <==> id in entries
      ensures r.Some? ==> r.value == entries[id]
    {
      if id !in entries {
        return None;
      }
      r := Some(entries[id]);
    }

    /** The lookup behind `download_audio`: `audio_cache.pop(id)` after the
        presence test, so a present id is returned and removed, and an
        absent one is not found and changes nothing. */
    method Download(id: string) returns (r: Option<Entry>)
      modifies this
      ensures r.Some? <==> id in old(entries)
      ensures r.Some? ==> r.value == old(entries)[id]
      ensures entries == old(entries) - {id}
      ensures id !in entries
      ensures id !in old(entries) ==> entries == old(entries)
    {
      if id !in entries {
        return None;
      }
      r := Some(entries[id]);
      entries := entries - {id};
    }
  }
}
