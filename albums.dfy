/** web-service-gin/main.go: a package-level slice of record albums behind three gin handlers. */
module Albums {
  import opened Wrappers
  import opened Http
  import Seqs

  /** Price is a float64 in the service; it is only stored and echoed, so an exact real stands in. */
  datatype Album = Album(id: string, title: string, artist: string, price: real)

  function FindAlbum(albums: seq<Album>, id: string): (r: Option<nat>)
    ensures r.Some? ==> r.value < |albums| && albums[r.value].id == id
                        && forall j :: 0 <= j < r.value ==> albums[j].id != id
    ensures r.None? <==> forall j :: 0 <= j < |albums| ==> albums[j].id != id
  {
    Seqs.FirstWhere(albums, (a: Album) => a.id == id)
  }

  /** The reply getAlbum gives for an ID over a given slice. */
  function AlbumReply(albums: seq<Album>, id: string): Reply<Album> {
    match FindAlbum(albums, id)
    case Some(i) => Json(StatusOK, Payload(albums[i]))
    case None => Json(StatusNotFound, Fields([("message", "album not found")]))
  }

  /** Nothing stops two albums sharing an ID; a lookup then always answers with the earlier one, so an
      album posted under a taken ID can never be fetched, while a fresh ID is found right after posting. */
  lemma {:induction false} LookupAfterAdd(albums: seq<Album>, a: Album)
    ensures FindAlbum(albums, a.id).None? ==> AlbumReply(albums + [a], a.id) == Json(StatusOK, Payload(a))
    ensures FindAlbum(albums, a.id).Some? ==> AlbumReply(albums + [a], a.id) == AlbumReply(albums, a.id)
    ensures forall id :: id != a.id ==> AlbumReply(albums + [a], id) == AlbumReply(albums, id)
  {
    forall id | id != a.id
      ensures AlbumReply(albums + [a], id) == AlbumReply(albums, id)
    {
      FindAfterAppend(albums, a, id);
    }
    FindAfterAppend(albums, a, a.id);
    assert (albums + [a])[|albums|] == a;
  }

  /** Appending keeps every earlier first match, and the appended album is found only by its own ID. */
  lemma FindAfterAppend(albums: seq<Album>, a: Album, id: string)
    ensures FindAlbum(albums + [a], id) ==
            if FindAlbum(albums, id).Some? then FindAlbum(albums, id)
            else if a.id == id then Some(|albums|) else None
  {
    var s := albums + [a];
    assert forall j :: 0 <= j < |albums| ==> s[j] == albums[j];
    assert s[|albums|] == a;
  }

  class AlbumList {
    var albums: seq<Album>

    constructor Seeded()
      ensures albums == [Album("1", "Blue Train", "John Coltrane", 56.99),
                         Album("2", "Jeru", "Gerry Mulligan", 17.99),
                         Album("3", "Sarah Vaughan and Clifford Brown", "Sarah Vaughan", 39.99)]
    {
      albums := [Album("1", "Blue Train", "John Coltrane", 56.99),
                 Album("2", "Jeru", "Gerry Mulligan", 17.99),
                 Album("3", "Sarah Vaughan and Clifford Brown", "Sarah Vaughan", 39.99)];
    }

    /** getAlbums: every album, in order, with 200. */
    method GetAlbums() returns (reply: Reply<seq<Album>>)
      ensures reply == Json(StatusOK, Payload(albums))
    {
      reply := Json(StatusOK, Payload(albums));
    }

    /** addAlbums: a bind failure leaves only BindJSON's bare 400 and appends nothing; otherwise the
        album is appended and echoed with 201. */
    method AddAlbums(body: Bound<Album>) returns (reply: Reply<Album>)
      modifies this
      ensures body.err.Some? ==> albums == old(albums) && reply == Reply(StatusBadRequest, [])
      ensures body.err.None? ==> albums == old(albums) + [body.value]
                                 && reply == Json(StatusCreated, Payload(body.value))
    {
      if body.err.Some? {
        return Reply(StatusBadRequest, []);
      }
      albums := albums + [body.value];
      reply := Json(StatusCreated, Payload(body.value));
    }

    /** getAlbum: the first album with the ID, else 404 "album not found". */
    method GetAlbum(id: string) returns (reply: Reply<Album>)
      ensures reply == AlbumReply(albums, id)
      ensures reply.status == StatusOK <==> exists j :: 0 <= j < |albums| && albums[j].id == id
    {
      for i := 0 to |albums|
        invariant forall j :: 0 <= j < i ==> albums[j].id != id
      {
        if albums[i].id == id {
          assert FindAlbum(albums, id) == Some(i);
          return Json(StatusOK, Payload(albums[i]));
        }
      }
      reply := Json(StatusNotFound, Fields([("message", "album not found")]));
    }
  }

}
