/**
 * The hidden services the download code awaits (catalog upsert, file
 * transfer, metadata cache, user library).  Their internals are not modelled:
 * each call either resolves or rejects, and which kinds of call reject on a
 * given run is an input.
 */
module Collaborators {
  import opened Wrappers

  datatype StepKind = Upsert | Download | CacheMetadata | Library

  /** A call, with the arguments the caller passes.  `E` is the caller's own episode shape. */
  datatype ServiceCall<E> =
    | UpsertEpisode(episode: E, id: string)
    | DownloadAudio(userId: string, episodeId: string, audioUrl: string, title: string)
    | CacheEpisodeMetadata(episodeId: string, metadata: map<string, Option<string>>)
    | AddToLibrary(userId: string, episode: E, id: string, status: string)

  /** What the transfer reports to its progress callback. */
  datatype TransferProgress = TransferProgress(progress: real, bytesWritten: int, contentLength: int)

  function KindOf<E>(c: ServiceCall<E>): StepKind {
    match c
    case UpsertEpisode(_, _) => Upsert
    case DownloadAudio(_, _, _, _) => Download
    case CacheEpisodeMetadata(_, _) => CacheMetadata
    case AddToLibrary(_, _, _, _) => Library
  }

  /** No call of the chain rejects. */
  predicate Completes<E>(chain: seq<ServiceCall<E>>, throws: set<StepKind>) {
    forall i :: 0 <= i < |chain| ==> KindOf(chain[i]) !in throws
  }

  /**
   * The calls made by awaiting `chain` in order inside one `try`: every call
   * up to and including the first that rejects, and none after it.
   */
  function CallsUntilFailure<E>(chain: seq<ServiceCall<E>>, throws: set<StepKind>): (r: seq<ServiceCall<E>>)
    ensures |r| <= |chain| && r == chain[..|r|]
    ensures Completes(chain, throws) ==> r == chain
    ensures !Completes(chain, throws) ==> r != [] && KindOf(r[|r| - 1]) in throws
    ensures forall i :: 0 <= i < |r| - 1 ==> KindOf(r[i]) !in throws
  {
    if chain == [] then []
    else if KindOf(chain[0]) in throws then [chain[0]]
    else [chain[0]] + CallsUntilFailure(chain[1..], throws)
  }

  /** Nothing runs after a rejected call. */
  lemma NothingAfterFailure<E>(chain: seq<ServiceCall<E>>, throws: set<StepKind>, i: nat)
    requires i < |chain| && KindOf(chain[i]) in throws
    ensures |CallsUntilFailure(chain, throws)| <= i + 1
  {
  }
}
