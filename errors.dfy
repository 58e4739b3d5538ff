/** The back end's error vocabulary (`AppError`), its display messages and its serialisation.
    The payloads of the wrapped library errors (scale, HTTP, JSON, motor, diagnostics) are foreign types;
    each is represented here by the text its own `Display` produces. */
module Errors {

  datatype AppError =
    | NoScale
    | Libra(scaleError: string)
    | ZeroSamples
    | Reqwest(httpError: string)
    | Serde(jsonError: string)
    | NotImplemented
    | Anyhow(motorError: string)
    | NodeDiagnostics(diagnosticsError: string)
    | ScaleExists
    | Other(message: string)

  const NoScaleMessage := "No Scale Connected!"
  const ZeroSamplesMessage := "Must have nonzero samples!"
  const NotImplementedMessage := "This feature is not yet implemented!"
  const ScaleExistsMessage := "Scale already exists!"
  const LibraPrefix := "Scale Error: "
  const ReqwestPrefix := "HTTP Request Error: "
  const SerdePrefix := "Serialization Error: "
  const DiagnosticsPrefix := "Node Diagnostics Error: "
  const OtherPrefix := "Other Error: "

  /** The `#[error(...)]` message of each variant: empty exactly for the motor variant, whose message is blank. */
  function Display(e: AppError): (m: string)
    ensures |m| == 0 <==> e.Anyhow?
  {
    match e
    case NoScale => NoScaleMessage
    case Libra(s) => LibraPrefix + s
    case ZeroSamples => ZeroSamplesMessage
    case Reqwest(s) => ReqwestPrefix + s
    case Serde(s) => SerdePrefix + s
    case NotImplemented => NotImplementedMessage
    case Anyhow(_) => ""
    case NodeDiagnostics(s) => DiagnosticsPrefix + s
    case ScaleExists => ScaleExistsMessage
    case Other(s) => OtherPrefix + s
  }

  /** What a serialiser receives from `impl Serialize for AppError`: a single string. */
  datatype Serialized = SerializedStr(text: string)

  /** `impl Serialize for AppError`: the front end receives an empty string exactly for a motor error. */
  function Serialize(e: AppError): (r: Serialized)
    ensures |r.text| == 0 <==> e.Anyhow?
  {
    SerializedStr(Display(e))
  }

  /** The fixed messages of the payload-free variants. */
  lemma FixedMessages()
    ensures Display(NoScale) == "No Scale Connected!"
    ensures Display(ZeroSamples) == "Must have nonzero samples!"
    ensures Display(NotImplemented) == "This feature is not yet implemented!"
    ensures Display(ScaleExists) == "Scale already exists!"
  {
  }

  /** Wrapping variants put a fixed prefix before the wrapped error's own text. */
  lemma PrefixedMessages(s: string)
    ensures Display(Other(s)) == "Other Error: " + s
    ensures Display(Libra(s)) == "Scale Error: " + s
    ensures Display(Reqwest(s)) == "HTTP Request Error: " + s
    ensures Display(Serde(s)) == "Serialization Error: " + s
    ensures Display(NodeDiagnostics(s)) == "Node Diagnostics Error: " + s
  {
  }

  /** Motor (anyhow) errors all display as the empty string: their detail is lost. */
  lemma AnyhowDisplaysEmpty(a: string, b: string)
    ensures Display(Anyhow(a)) == "" && Display(Anyhow(a)) == Display(Anyhow(b))
  {
  }

  /** Serialisation emits exactly the display string. */
  lemma SerializeIsDisplay(e: AppError)
    ensures Serialize(e).text == Display(e)
  {
  }

  /** Two non-motor errors that reach the front end as the same string are the same error. */
  lemma SerializeIdentifies(e1: AppError, e2: AppError)
    requires !e1.Anyhow? && !e2.Anyhow?
    requires Serialize(e1) == Serialize(e2)
    ensures e1 == e2
  {
    DisplayInjective(e1, e2);
  }

  /** Except for the motor variant, the message identifies the error: from what the front end receives
      one can tell the variant and its payload. */
  lemma {:induction false} DisplayInjective(e1: AppError, e2: AppError)
    requires !e1.Anyhow? && !e2.Anyhow?
    requires Display(e1) == Display(e2)
    ensures e1 == e2
  {
    PrefixOf(e1);
    PrefixOf(e2);
    if e1.Libra? || e1.Reqwest? || e1.Serde? || e1.NodeDiagnostics? || e1.Other? {
      StripPrefix(e1, e2);
    }
  }

  /** Every message of a non-motor variant begins with its first three characters, which differ between variants. */
  function Tag(e: AppError): string
  {
    match e
    case NoScale => "No "
    case Libra(_) => "Sca"
    case ZeroSamples => "Mus"
    case Reqwest(_) => "HTT"
    case Serde(_) => "Ser"
    case NotImplemented => "Thi"
    case Anyhow(_) => ""
    case NodeDiagnostics(_) => "Nod"
    case ScaleExists => "Sca"
    case Other(_) => "Oth"
  }

  lemma PrefixOf(e: AppError)
    requires !e.Anyhow?
    ensures |Display(e)| >= 3 && Display(e)[..3] == Tag(e)
    ensures e.Libra? ==> |Display(e)| >= 7 && Display(e)[6] == 'E'
    ensures e.ScaleExists? ==> Display(e)[6] == 'a'
  {
    var m := Display(e);
    var t := Tag(e);
    assert |m| >= 3 && m[0] == t[0] && m[1] == t[1] && m[2] == t[2];
    assert m[..3] == t;
  }

  lemma StripPrefix(e1: AppError, e2: AppError)
    requires e1.Libra? || e1.Reqwest? || e1.Serde? || e1.NodeDiagnostics? || e1.Other?
    requires !e2.Anyhow? && Display(e1) == Display(e2)
    requires Tag(e1) == Tag(e2) && (e1.Libra? ==> e2.Libra?)
    ensures e1 == e2
  {
    var m := Display(e1);
    match e1
    case Libra(s) =>
      assert m[|LibraPrefix|..] == s;
      assert m[|LibraPrefix|..] == e2.scaleError;
    case Reqwest(s) =>
      assert m[|ReqwestPrefix|..] == s;
      assert m[|ReqwestPrefix|..] == e2.httpError;
    case Serde(s) =>
      assert m[|SerdePrefix|..] == s;
      assert m[|SerdePrefix|..] == e2.jsonError;
    case NodeDiagnostics(s) =>
      assert m[|DiagnosticsPrefix|..] == s;
      assert m[|DiagnosticsPrefix|..] == e2.diagnosticsError;
    case Other(s) =>
      assert m[|OtherPrefix|..] == s;
      assert m[|OtherPrefix|..] == e2.message;
  }
}
