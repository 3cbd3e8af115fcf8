/** Tile ids: the pair (person, source) written as one string. */
module Publications {
  import opened Protocol

  type PublicationId = string

  const SEPARATOR := ':'

  function SourceName(s: Source): string {
    match s
    case Screen => "screen"
    case Camera => "camera"
  }

  function TileId(owner: UserId, s: Source): PublicationId {
    owner + [SEPARATOR] + SourceName(s)
  }

  /** Index of the last separator, or -1. */
  function LastSeparator(id: string): (cut: int)
    ensures -1 <= cut < |id|
    ensures cut >= 0 ==> id[cut] == SEPARATOR
    ensures forall i :: cut < i < |id| ==> id[i] != SEPARATOR
  {
    if id == [] then -1
    else if id[|id| - 1] == SEPARATOR then |id| - 1
    else LastSeparator(id[..|id| - 1])
  }

  function Parse(id: PublicationId): Option<(UserId, Source)> {
    var cut := LastSeparator(id);
    if cut <= 0 then None
    else if id[cut + 1..] == "screen" then Some((id[..cut], Screen))
    else if id[cut + 1..] == "camera" then Some((id[..cut], Camera))
    else None
  }

  lemma CutOfTileId(owner: UserId, s: Source)
    ensures LastSeparator(TileId(owner, s)) == |owner|
    ensures TileId(owner, s)[..|owner|] == owner
    ensures TileId(owner, s)[|owner| + 1..] == SourceName(s)
  {
    var id := TileId(owner, s);
    assert id[|owner|] == SEPARATOR;
    assert id[|owner| + 1..] == SourceName(s);
    forall i | |owner| < i < |id| ensures id[i] != SEPARATOR {
      assert id[i] == SourceName(s)[i - |owner| - 1];
    }
  }

  /** Parsing recovers owner and source, whatever separators the owner's id holds
      itself, exactly when the owner's id is not empty. */
  lemma ParseInvertsTileId(owner: UserId, s: Source)
    ensures Parse(TileId(owner, s)) == if owner == "" then None else Some((owner, s))
  {
    CutOfTileId(owner, s);
    assert "screen"[0] != "camera"[0];
  }

  /** What parses is a tile id: nothing else is taken for one. */
  lemma TileIdInvertsParse(id: PublicationId)
    requires Parse(id).Some?
    ensures TileId(Parse(id).value.0, Parse(id).value.1) == id
  {
    var cut := LastSeparator(id);
    assert id == id[..cut] + [id[cut]] + id[cut + 1..];
  }

  lemma TileIdInjective(u: UserId, s: Source, u': UserId, s': Source)
    requires TileId(u, s) == TileId(u', s')
    ensures u == u' && s == s'
  {
    CutOfTileId(u, s);
    CutOfTileId(u', s');
    assert "screen"[0] != "camera"[0];
  }

  /** How one reads. */
  lemma TileIdReads()
    ensures TileId("42", Screen) == "42:screen" && TileId("42", Camera) == "42:camera"
  {
  }

  /** No two publications share a tile. */
  lemma TileIdsDistinct()
    ensures forall u, s, u', s' :: TileId(u, s) == TileId(u', s') ==> u == u' && s == s'
  {
    forall u, s, u', s' | TileId(u, s) == TileId(u', s') ensures u == u' && s == s' {
      TileIdInjective(u, s, u', s');
    }
  }
}
