/** Request parameters: `UploadData`, `Parameter` and the keyed `RequestData`. */
module Parameters {
  import opened Optionals

  /** A file part; the stream is an opaque reference, the URL its string form. */
  datatype UploadData =
    | Data(data: seq<bv8>, fileName: string)
    | Stream(stream: nat, fileName: string, length: int)
    | Url(fileUrl: string)

  datatype Parameter = Text(text: Option<string>) | File(upload: UploadData)

  /** `init(stringLiteral:)`. */
  function FromStringLiteral(value: string): (p: Parameter)
    ensures p.Text? && p.text == Some(value)
  {
    Text(Some(value))
  }

  /** `init(unicodeScalarLiteral:)`. */
  function FromUnicodeScalarLiteral(value: string): (p: Parameter)
    ensures p.Text? && p.text == Some(value)
  {
    Text(Some(value))
  }

  /** `init(extendedGraphemeClusterLiteral:)`. */
  function FromExtendedGraphemeClusterLiteral(value: string): (p: Parameter)
    ensures p.Text? && p.text == Some(value)
  {
    Text(Some(value))
  }

  /** Whichever literal form a parameter is written in, it is the text itself. */
  lemma LiteralInitialisersAgree(value: string)
    ensures FromStringLiteral(value) == FromUnicodeScalarLiteral(value)
    ensures FromUnicodeScalarLiteral(value) == FromExtendedGraphemeClusterLiteral(value)
    ensures FromStringLiteral(value).Text? && FromStringLiteral(value).text == Some(value)
  {
  }

  datatype RequestData = RequestData(rawData: map<string, Parameter>)
  {
    /** The subscript getter: the parameter stored under `key`, if any. */
    function Get(key: string): (p: Option<Parameter>)
      ensures p.Some? <==> key in rawData
      ensures p.Some? ==> p.value == rawData[key]
    {
      if key in rawData then Some(rawData[key]) else None
    }

    /** The subscript setter: `nil` removes the key, anything else stores it. */
    function Set(key: string, newValue: Option<Parameter>): (d: RequestData)
      ensures d.Get(key) == newValue
      ensures forall k :: k != key ==> d.Get(k) == Get(k)
      ensures newValue.None? ==> d.rawData.Keys == rawData.Keys - {key}
      ensures newValue.Some? ==> d.rawData.Keys == rawData.Keys + {key}
    {
      match newValue
      case None => RequestData(rawData - {key})
      case Some(v) => RequestData(rawData[key := v])
    }
  }

  /** A fresh `RequestData()` holds nothing. */
  const Empty: RequestData := RequestData(map[])

  lemma EmptyHasNoKeys(key: string)
    ensures Empty.Get(key).None?
  {
  }

  /** Reading back what was just written. */
  lemma {:induction false} SetThenGet(d: RequestData, key: string, v: Parameter, other: string)
    ensures d.Set(key, Some(v)).Get(key) == Some(v)
    ensures d.Set(key, None).Get(key).None?
    ensures other != key ==> d.Set(key, Some(v)).Get(other) == d.Get(other)
  {
  }
}
