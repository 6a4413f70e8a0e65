/** The crate's error type, the `From` conversions that `?` applies, and the
    two option-handling macros the item conversions are written with. */
module Errors {
  import opened Wrappers

  /** A `ureq::Error`. The library type is opaque here; it is kept as the text it displays. */
  datatype UreqError = UreqError(description: string)

  /** A `miniserde::Error`, kept as the text it displays. */
  datatype DecodeError = DecodeError(description: string)

  /** A `std::io::Error`, kept as the text it displays. */
  datatype IoError = IoError(description: string)

  datatype HError =
    | UReq(ureq: UreqError)
    | Miniserde(miniserde: DecodeError)
    | Io(io: IoError)
    | ConversionFailed

  /** The fixed text `ConversionFailed` displays, "Conversion between returned data and
      our representation failed.". It is written as a concatenation because the verifier
      treats a single string literal of this length as opaque and cannot read its
      characters, which `DisplayLead` needs. */
  const ConversionFailedMessage := "Conversion between " + "returned data and our " + "representation failed."

  /** The `Display` implementation: a fixed prefix per variant, then the payload's own text. */
  function Display(e: HError): (text: string)
    ensures e.UReq? ==> text == "UReq Error: " + e.ureq.description
    ensures e.Miniserde? ==> text == "Miniserde Error: " + e.miniserde.description
    ensures e.Io? ==> text == "Io Error: " + e.io.description
    ensures e.ConversionFailed? ==> text == ConversionFailedMessage
  {
    match e
    case UReq(u) => "UReq Error: " + u.description
    case Miniserde(d) => "Miniserde Error: " + d.description
    case Io(i) => "Io Error: " + i.description
    case ConversionFailed => ConversionFailedMessage
  }

  /** The first character of a displayed error names its variant. */
  lemma DisplayLead(e: HError)
    ensures |Display(e)| > 0
    ensures Display(e)[0] == match e
                             case UReq(_) => 'U'
                             case Miniserde(_) => 'M'
                             case Io(_) => 'I'
                             case ConversionFailed => 'C'
  {
    match e
    case UReq(u) => assert Display(e)[0] == "UReq Error: "[0];
    case Miniserde(d) => assert Display(e)[0] == "Miniserde Error: "[0];
    case Io(i) => assert Display(e)[0] == "Io Error: "[0];
    case ConversionFailed =>
  }

  /** The displayed text tells the variants apart: errors of different variants never
      display alike, and only `ConversionFailed` displays its fixed message. Within one
      variant the text is the payload's own text, so two foreign errors that print the
      same text display the same. */
  lemma DisplayTellsVariants(a: HError, b: HError)
    ensures Display(a) == Display(b) ==> a.UReq? == b.UReq? && a.Miniserde? == b.Miniserde? && a.Io? == b.Io?
    ensures Display(a) == ConversionFailedMessage <==> a == ConversionFailed
    ensures a.UReq? && b.UReq? ==> (Display(a) == Display(b) <==> a.ureq.description == b.ureq.description)
    ensures a.Miniserde? && b.Miniserde? ==> (Display(a) == Display(b) <==> a.miniserde.description == b.miniserde.description)
    ensures a.Io? && b.Io? ==> (Display(a) == Display(b) <==> a.io.description == b.io.description)
  {
    DisplayLead(a);
    DisplayLead(b);
    DisplayLead(ConversionFailed);
    if Display(a) == Display(b) {
      match a
      case UReq(u) =>
        assert u.description == Display(a)[|"UReq Error: "|..];
      case Miniserde(d) =>
        assert d.description == Display(a)[|"Miniserde Error: "|..];
      case Io(i) =>
        assert i.description == Display(a)[|"Io Error: "|..];
      case ConversionFailed =>
    }
  }

  function FromUreq(e: UreqError): HError {
    UReq(e)
  }

  function FromMiniserde(e: DecodeError): HError {
    Miniserde(e)
  }

  function FromIo(e: IoError): HError {
    Io(e)
  }

  /** Each `From` wraps its error into its own variant and loses nothing. */
  lemma FromIsLossless(u1: UreqError, u2: UreqError, d1: DecodeError, d2: DecodeError, i1: IoError, i2: IoError)
    ensures FromUreq(u1) == FromUreq(u2) <==> u1 == u2
    ensures FromMiniserde(d1) == FromMiniserde(d2) <==> d1 == d2
    ensures FromIo(i1) == FromIo(i2) <==> i1 == i2
    ensures FromUreq(u1) != FromMiniserde(d1) && FromUreq(u1) != FromIo(i1) && FromMiniserde(d1) != FromIo(i1)
    ensures FromUreq(u1) != ConversionFailed && FromMiniserde(d1) != ConversionFailed && FromIo(i1) != ConversionFailed
  {
  }

  /** `convert!(e)`, that is `e.ok_or(HError::ConversionFailed)?`: a missing value fails the conversion. */
  function Convert<T>(o: Option<T>): (r: Result<T, HError>)
    ensures r.Ok? <==> o.Some?
    ensures r.Ok? ==> o == Some(r.value)
    ensures r.Err? ==> r.error == ConversionFailed
  {
    match o
    case Some(v) => Ok(v)
    case None => Err(ConversionFailed)
  }

  /** `convert_default!(e)`, that is `e.unwrap_or_default()` on a `Vec`: it never fails. */
  function ConvertDefault<T>(o: Option<seq<T>>): (s: seq<T>)
    ensures o.None? ==> s == []
    ensures o.Some? ==> s == o.value
  {
    match o
    case Some(v) => v
    case None => []
  }
}
