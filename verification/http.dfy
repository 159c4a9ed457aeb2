/**
 * The inbound callback request as the handlers see it: the path info and
 * the request parameters, which a servlet container reads from the query
 * string of the URL the provider redirected to.
 */
module Http {
  import opened Wrappers
  import JavaStrings
  import UrlCodec
  import Uris

  /** `pathInfo` is `None` when the request has no path info. */
  datatype Request = Request(pathInfo: Option<string>, parameters: seq<(string, string)>)

  /** The first value of the parameters named `name`; `None` when there is none. */
  function Lookup(ps: seq<(string, string)>, name: string): (r: Option<string>)
    ensures r.Some? <==> exists i :: 0 <= i < |ps| && ps[i].0 == name
    ensures r.Some? ==> exists i :: 0 <= i < |ps| && ps[i] == (name, r.value)
                          && forall j :: 0 <= j < i ==> ps[j].0 != name
  {
    if ps == [] then None
    else if ps[0].0 == name then
      assert ps[0] == (name, ps[0].1);
      Some(ps[0].1)
    else
      var r := Lookup(ps[1..], name);
      assert forall i :: 1 <= i < |ps| ==> ps[i] == ps[1..][i - 1];
      r
  }

  /** `request.getParameter(name)`; a null name finds nothing. */
  function Parameter(req: Request, name: Option<string>): (r: Option<string>)
    ensures name.None? ==> r.None?
    ensures name.Some? ==> r == Lookup(req.parameters, name.value)
  {
    if name.None? then None else Lookup(req.parameters, name.value)
  }

  /** One `name=value` piece of a query string, both halves form-decoded; a piece that does not decode is dropped. */
  function PieceParameter(piece: string): (r: seq<(string, string)>)
    ensures |r| <= 1
  {
    if piece == [] then []
    else
      var i := Uris.Find(piece, '=');
      var name := UrlCodec.Decode(piece[..i]);
      var value := UrlCodec.Decode(if i < |piece| then piece[i + 1..] else []);
      if name.Some? && value.Some? then [(name.value, value.value)] else []
  }

  function PiecesParameters(pieces: seq<string>): seq<(string, string)>
  {
    if pieces == [] then [] else PieceParameter(pieces[0]) + PiecesParameters(pieces[1..])
  }

  /**
   * The request that arrives when the browser follows a redirect to `u`:
   * its path as the path info, its query as the parameters. The extractors
   * look only at the last two path segments, so a servlet path in front
   * makes no difference to them.
   */
  function Arrival(u: Uris.Uri): Request
  {
    Request(Some(u.path), QueryParameters(u.query))
  }

  /** The parameters a container reads from a query string, in order. */
  function QueryParameters(query: Option<string>): seq<(string, string)>
  {
    if query.None? then [] else PiecesParameters(JavaStrings.SplitAll(query.value, '&'))
  }

  lemma {:induction false} PiecesParametersAppend(ps: seq<string>, qs: seq<string>)
    ensures PiecesParameters(ps + qs) == PiecesParameters(ps) + PiecesParameters(qs)
  {
    if ps == [] {
      assert ps + qs == qs;
    } else {
      assert (ps + qs)[1..] == ps[1..] + qs;
      PiecesParametersAppend(ps[1..], qs);
    }
  }

  /** A piece `name=value` whose name holds no '=' splits at that '=' into its decoded halves. */
  lemma SplitPiece(name: string, value: string)
    requires '=' !in name
    ensures var n := UrlCodec.Decode(name); var v := UrlCodec.Decode(value);
      PieceParameter(name + "=" + value) == if n.Some? && v.Some? then [(n.value, v.value)] else []
  {
    var piece := name + "=" + value;
    assert piece == name + ("=" + value);
    Uris.FindAppend(name, "=" + value, '=');
    assert ("=" + value)[0] == '=';
    assert Uris.Find(piece, '=') == |name|;
    assert piece[..|name|] == name && piece[|name| + 1..] == value;
  }

  /** A `name=value` piece of plain characters reads as that very parameter. */
  lemma PlainPiece(name: string, value: string)
    requires '=' !in name && '%' !in name && '+' !in name && '%' !in value && '+' !in value
    ensures PieceParameter(name + "=" + value) == [(name, value)]
  {
    SplitPiece(name, value);
    UrlCodec.DecodePlain(name);
    UrlCodec.DecodePlain(value);
  }

  /** A `name=value` piece whose value is form-encoded reads as the original value. */
  lemma EncodedPiece(name: string, value: string)
    requires '=' !in name && '%' !in name && '+' !in name
    ensures PieceParameter(name + "=" + UrlCodec.Encode(value)) == [(name, value)]
  {
    SplitPiece(name, UrlCodec.Encode(value));
    UrlCodec.DecodePlain(name);
    UrlCodec.DecodeEncode(value);
  }

  lemma PlainPieceAlone(name: string, value: string)
    requires '=' !in name && '%' !in name && '+' !in name && '&' !in name
    requires '%' !in value && '+' !in value && '&' !in value
    ensures '&' !in name + "=" + value
    ensures PiecesParameters(JavaStrings.SplitAll(name + "=" + value, '&')) == [(name, value)]
  {
    var piece := name + "=" + value;
    PlainPiece(name, value);
    assert forall i :: 0 <= i < |piece| ==> piece[i] != '&' by {
      forall i | 0 <= i < |piece| ensures piece[i] != '&' {
        if i < |name| {
          assert piece[i] == name[i] && name[i] in name;
        } else if i > |name| {
          assert piece[i] == value[i - |name| - 1] && value[i - |name| - 1] in value;
        }
      }
    }
    JavaStrings.SplitAllNoSeparator(piece, '&');
    assert PiecesParameters([piece]) == PieceParameter(piece) + PiecesParameters([]);
  }

  /** A query without '&' is a single piece. */
  lemma OnePiece(piece: string)
    requires '&' !in piece
    ensures QueryParameters(Some(piece)) == PieceParameter(piece)
  {
    JavaStrings.SplitAllNoSeparator(piece, '&');
    assert PiecesParameters([piece]) == PieceParameter(piece) + PiecesParameters([]);
  }

  lemma QueryAppendSome(q: string, piece: string)
    requires '&' !in piece
    ensures PiecesParameters(JavaStrings.SplitAll(q + "&" + piece, '&'))
            == PiecesParameters(JavaStrings.SplitAll(q, '&')) + PiecesParameters([piece])
  {
    assert q + "&" + piece == q + ['&'] + piece;
    JavaStrings.SplitAllAppend(q, piece, '&');
    JavaStrings.SplitAllNoSeparator(piece, '&');
    PiecesParametersAppend(JavaStrings.SplitAll(q, '&'), [piece]);
  }

  /** Appending `&name=value` to a query adds that parameter after the existing ones. */
  lemma QueryAppend(query: Option<string>, name: string, value: string)
    requires '=' !in name && '%' !in name && '+' !in name && '&' !in name
    requires '%' !in value && '+' !in value && '&' !in value
    ensures QueryParameters(Some(if query.Some? then query.value + "&" + name + "=" + value else name + "=" + value))
            == QueryParameters(query) + [(name, value)]
  {
    PlainPieceAlone(name, value);
    var piece := name + "=" + value;
    if query.Some? {
      assert query.value + "&" + name + "=" + value == query.value + "&" + piece;
      QueryAppendSome(query.value, piece);
      JavaStrings.SplitAllNoSeparator(piece, '&');
    }
  }

  /** A parameter added after the others is found only when no earlier one has its name. */
  lemma {:induction false} LookupAppend(ps: seq<(string, string)>, name: string, value: string)
    ensures Lookup(ps + [(name, value)], name) == if Lookup(ps, name).Some? then Lookup(ps, name) else Some(value)
  {
    if ps == [] {
      assert ps + [(name, value)] == [(name, value)];
    } else {
      assert (ps + [(name, value)])[1..] == ps[1..] + [(name, value)];
      LookupAppend(ps[1..], name, value);
    }
  }
}
