/** The mTLS peer identity and its URI form (sdk/go/transportsecurity/config.go). */
module IdentityUri {
  import opened Text
  import opened Wrappers

  const PREFIX := "agentnexus://enterprise/"
  const SERVICE_MARKER := "service"
  const INSTALL_MARKER := "installation"
  const MAX_SEGMENT_BYTES := 128

  datatype Identity = Identity(enterprise: string, service: string, installation: string) {
    predicate Valid() {
      && ValidSegment(enterprise) && ValidSegment(service)
      && (installation != "" ==> ValidSegment(installation))
    }

    /** The frozen form; an invalid identity has none. */
    function Uri(): Option<string> {
      if !Valid() then None
      else
        var uri := "agentnexus" + "://" + "enterprise" + "/" + enterprise + "/" + SERVICE_MARKER + "/" + service;
        Some(if installation != "" then uri + "/" + INSTALL_MARKER + "/" + installation else uri)
    }
  }

  predicate Alphanumeric(c: char) {
    'a' <= c <= 'z' || '0' <= c <= '9'
  }

  /** [a-z0-9]([a-z0-9._-]*[a-z0-9])?, at most 128 bytes. */
  predicate ValidSegment(s: string) {
    && 1 <= |s| <= MAX_SEGMENT_BYTES
    && (forall i :: 0 <= i < |s| ==> Alphanumeric(s[i]) || s[i] in {'-', '_', '.'})
    && Alphanumeric(s[0]) && Alphanumeric(s[|s| - 1])
  }

  method ValidateSegment(segment: string) returns (ok: bool)
    ensures ok <==> ValidSegment(segment)
  {
    if segment == "" || |segment| > MAX_SEGMENT_BYTES {
      return false;
    }
    for i := 0 to |segment|
      invariant forall j :: 0 <= j < i ==> Alphanumeric(segment[j]) || segment[j] in {'-', '_', '.'}
      invariant i > 0 ==> Alphanumeric(segment[0])
      invariant i == |segment| ==> Alphanumeric(segment[|segment| - 1])
    {
      var c := segment[i];
      if !Alphanumeric(c) {
        if c == '-' || c == '_' || c == '.' {
          if i == 0 || i == |segment| - 1 {
            return false;
          }
        } else {
          return false;
        }
      }
    }
    ok := true;
  }

  function Parse(raw: string): Option<Identity> {
    if !(PREFIX <= raw) then None
    else
      var segments := Split(raw[|PREFIX|..], '/');
      if |segments| != 3 && |segments| != 5 then None
      else if segments[1] != SERVICE_MARKER then None
      else if |segments| == 5 && (segments[3] != INSTALL_MARKER || segments[4] == "") then None
      else
        var id := Identity(segments[0], segments[2], if |segments| == 5 then segments[4] else "");
        if id.Valid() then Some(id) else None
  }

  /** The path segments of a valid identity. */
  function Path(id: Identity): seq<string> {
    [id.enterprise, SERVICE_MARKER, id.service]
    + if id.installation == "" then [] else [INSTALL_MARKER, id.installation]
  }

  lemma JoinThree(a: string, b: string, c: string)
    ensures Join([a, b, c], '/') == a + "/" + b + "/" + c
  {
    assert [a, b, c][1..] == [b, c] && [b, c][1..] == [c];
    assert Join([c], '/') == c;
    assert Join([b, c], '/') == b + ['/'] + c;
    assert Join([a, b, c], '/') == a + ['/'] + (b + ['/'] + c);
  }

  lemma JoinFive(a: string, b: string, c: string, d: string, e: string)
    ensures Join([a, b, c, d, e], '/') == a + "/" + b + "/" + c + "/" + d + "/" + e
  {
    JoinThree(c, d, e);
    assert [a, b, c, d, e][1..] == [b, c, d, e] && [b, c, d, e][1..] == [c, d, e];
    assert Join([b, c, d, e], '/') == b + ['/'] + Join([c, d, e], '/');
    assert Join([a, b, c, d, e], '/') == a + ['/'] + Join([b, c, d, e], '/');
    assert a + ['/'] + (b + ['/'] + (c + "/" + d + "/" + e)) == a + "/" + b + "/" + c + "/" + d + "/" + e;
  }

  lemma ShortUri(id: Identity)
    requires id.Valid() && id.installation == ""
    ensures id.Uri() == Some(PREFIX + (id.enterprise + "/" + SERVICE_MARKER + "/" + id.service))
  {
    hide ValidSegment;
    var head := "agentnexus" + "://" + "enterprise" + "/";
    assert head == PREFIX;
    assert head + id.enterprise + "/" + SERVICE_MARKER + "/" + id.service
        == head + (id.enterprise + "/" + SERVICE_MARKER + "/" + id.service);
  }

  lemma LongUri(id: Identity)
    requires id.Valid() && id.installation != ""
    ensures id.Uri() == Some(ShortForm(id) + "/" + INSTALL_MARKER + "/" + id.installation)
  {
    hide ValidSegment;
    ShortUri(id.(installation := ""));
  }

  function ShortForm(id: Identity): string {
    PREFIX + (id.enterprise + "/" + SERVICE_MARKER + "/" + id.service)
  }

  lemma UriIsPath(id: Identity)
    requires id.Valid()
    ensures id.Uri() == Some(PREFIX + Join(Path(id), '/'))
  {
    hide ValidSegment, Join;
    if id.installation == "" {
      assert Path(id) == [id.enterprise, SERVICE_MARKER, id.service];
      JoinThree(id.enterprise, SERVICE_MARKER, id.service);
      ShortUri(id);
    } else {
      assert Path(id) == [id.enterprise, SERVICE_MARKER, id.service, INSTALL_MARKER, id.installation];
      JoinFive(id.enterprise, SERVICE_MARKER, id.service, INSTALL_MARKER, id.installation);
      LongUri(id);
      PushIn(id.enterprise + "/" + SERVICE_MARKER + "/" + id.service, "/", INSTALL_MARKER, "/", id.installation);
    }
  }

  lemma PushIn(a: string, b: string, c: string, d: string, e: string)
    ensures PREFIX + a + b + c + d + e == PREFIX + (a + b + c + d + e)
  {
  }

  lemma SegmentHasNoSlash(s: string)
    requires ValidSegment(s)
    ensures '/' !in s && s != ""
  {
  }

  /** Parsing the printed form of any valid identity returns it. */
  lemma ParseUri(id: Identity)
    requires id.Valid()
    ensures id.Uri().Some? && Parse(id.Uri().value) == Some(id)
  {
    hide ValidSegment, Join, Split;
    UriIsPath(id);
    SegmentHasNoSlash(id.enterprise);
    SegmentHasNoSlash(id.service);
    if id.installation != "" {
      SegmentHasNoSlash(id.installation);
    }
    SplitJoin(Path(id), '/');
    assert id.Uri().value[|PREFIX|..] == Join(Path(id), '/');
  }

  /** Printing what was parsed from any accepted string returns that exact string. */
  lemma UriParse(raw: string)
    requires Parse(raw).Some?
    ensures Parse(raw).value.Valid() && Parse(raw).value.Uri() == Some(raw)
  {
    hide ValidSegment, Join, Split;
    var id, segments := Parse(raw).value, Split(raw[|PREFIX|..], '/');
    UriIsPath(id);
    JoinSplit(raw[|PREFIX|..], '/');
    assert segments == Path(id);
    assert raw == PREFIX + raw[|PREFIX|..];
  }

  /** So the accepted strings are exactly the printed forms, and no two identities share one. */
  lemma AcceptedIsPrinted(raw: string, a: Identity, b: Identity)
    ensures Parse(raw).Some? <==> exists id: Identity :: id.Valid() && id.Uri() == Some(raw)
    ensures a.Valid() && b.Valid() && a.Uri() == b.Uri() ==> a == b
  {
    hide ValidSegment, Join, Split, Parse;
    if Parse(raw).Some? {
      UriParse(raw);
    }
    if id: Identity :| id.Valid() && id.Uri() == Some(raw) {
      ParseUri(id);
    }
    if a.Valid() && b.Valid() && a.Uri() == b.Uri() {
      ParseUri(a);
      ParseUri(b);
    }
  }

  /** A segment is 1 to 128 lower-case letters, digits, hyphens, underscores and dots, of which the first and the last
      are a letter or a digit. */
  lemma SegmentForm(s: string)
    ensures ValidSegment(s) <==>
              && s != "" && |s| <= 128
              && (forall c :: c in s ==> 'a' <= c <= 'z' || '0' <= c <= '9' || c in {'.', '_', '-'})
              && s[0] !in {'.', '_', '-'} && s[|s| - 1] !in {'.', '_', '-'}
  {
    assert forall i :: 0 <= i < |s| ==> s[i] in s;
  }

  /** The printed forms, with and without an installation. */
  lemma UriForm(enterprise: string, service: string, installation: string)
    requires ValidSegment(enterprise) && ValidSegment(service) && ValidSegment(installation)
    ensures Identity(enterprise, service, "").Uri()
            == Some("agentnexus://enterprise/" + enterprise + "/service/" + service)
    ensures Identity(enterprise, service, installation).Uri()
            == Some("agentnexus://enterprise/" + enterprise + "/service/" + service + "/installation/" + installation)
  {
    hide ValidSegment;
    assert installation != "" by { SegmentHasNoSlash(installation); }
    assert "agentnexus" + "://" + "enterprise" + "/" == "agentnexus://enterprise/";
    var short := "agentnexus" + "://" + "enterprise" + "/" + enterprise + "/" + "service" + "/" + service;
    assert short == "agentnexus://enterprise/" + enterprise + "/service/" + service;
    assert short + "/" + "installation" + "/" + installation == short + "/installation/" + installation;
  }
}
