/**
 * An abstract stand-in for the platform's shared media collection, reached
 * through a content resolver. Only what the app relies on is kept: `insert`
 * may refuse (returning no URI), a successful `insert` creates exactly one new
 * entry under a URI that was not in use, and `delete` removes one entry.
 */
module Media {
  import opened Wrappers

  type Uri = nat

  /** The collection the entry is created in, chosen by platform level. */
  datatype Collection = ExternalPrimary | ExternalContent

  /** The `ContentValues` the app attaches to a new media entry. */
  datatype ContentValues = ContentValues(
    collection: Collection,
    displayName: string,
    mimeType: string,
    relativePath: Option<string>)

  class ContentResolver {
    var entries: map<Uri, ContentValues>
    var nextUri: Uri

    /** Every URI in use was handed out before `nextUri`. */
    ghost predicate Valid()
      reads this
    {
      forall u :: u in entries ==> u < nextUri
    }

    constructor ()
      ensures Valid() && entries == map[]
    {
      entries := map[];
      nextUri := 0;
    }

    /** `resolver.insert`: `accepted` is the platform's answer (false = it returned null). */
    method Insert(values: ContentValues, accepted: bool) returns (uri: Option<Uri>)
      requires Valid()
      modifies this
      ensures Valid()
      ensures uri.Some? <==> accepted
      ensures uri.Some? ==> uri.value !in old(entries) && entries == old(entries)[uri.value := values]
      ensures uri.None? ==> entries == old(entries)
    {
      if accepted {
        uri := Some(nextUri);
        entries := entries[nextUri := values];
        nextUri := nextUri + 1;
      } else {
        uri := None;
      }
    }

    /** `resolver.delete(uri, null, null)`. */
    method Delete(uri: Uri)
      requires Valid()
      modifies this`entries
      ensures Valid()
      ensures entries == old(entries) - {uri}
    {
      entries := entries - {uri};
    }
  }
}
