/** diff.go: the record every engine emits, the union of resource wrappers it
    carries, the accessors built on them, and the choice of engine by
    entrypoint type. */
module ResourceDiffs {
  import opened Base
  import opened Entrypoints
  import KubeObjects
  import KubernetesResources
  import KustomizeResources
  import CfnResources
  import TerraformResources

  /** `DiffType`; `Unset` is the zero value a record keeps when no tag is
      assigned. */
  datatype DiffType = Unset | Create | Replace | Update | Delete

  /** The JSON tag of a diff type. */
  function Tag(t: DiffType): (s: string)
    ensures t == Unset <==> s == ""
  {
    match t
    case Unset => ""
    case Create => "create"
    case Replace => "replace"
    case Update => "update"
    case Delete => "delete"
  }

  /** No two diff types share a tag, so a tag can be read back. */
  lemma TagInjective(a: DiffType, b: DiffType)
    ensures Tag(a) == Tag(b) ==> a == b
  {
  }

  /** One entry of an r3labs changelog; foreign, kept as data. */
  datatype Change = Change(kind: string, path: seq<string>, from: Json, to: Json)

  type Changelog = seq<Change>

  /** The `Resource` interface: the four wrappers the engines build. */
  datatype Resource =
    | KubernetesRes(kube: KubeObjects.KubeResource)
    | KustomizeRes(kube: KubeObjects.KubeResource)
    | CloudformationRes(cfn: CfnResources.CloudformationResource)
    | TerraformRes(tf: TerraformResources.TerraformResource)

  function Type(r: Resource): string {
    match r
    case KubernetesRes(k) => KubernetesResources.Type(k)
    case KustomizeRes(k) => KustomizeResources.Type(k)
    case CloudformationRes(c) => CfnResources.Type(c)
    case TerraformRes(t) => TerraformResources.Type(t)
  }

  function Identifier(r: Resource): string {
    match r
    case KubernetesRes(k) => KubernetesResources.Identifier(k)
    case KustomizeRes(k) => KustomizeResources.Identifier(k)
    case CloudformationRes(c) => CfnResources.Identifier(c)
    case TerraformRes(t) => TerraformResources.Identifier(t)
  }

  function Name(r: Resource): string {
    match r
    case KubernetesRes(k) => KubernetesResources.Name(k)
    case KustomizeRes(k) => KustomizeResources.Name(k)
    case CloudformationRes(c) => CfnResources.Name(c)
    case TerraformRes(t) => TerraformResources.Name(t)
  }

  /** A resource's type names its wrapper: the four wrappers report four
      different entrypoint types. */
  lemma TypeNamesWrapper(a: Resource, b: Resource)
    ensures Type(a) == Type(b) <==> (
      || (a.KubernetesRes? && b.KubernetesRes?)
      || (a.KustomizeRes? && b.KustomizeRes?)
      || (a.CloudformationRes? && b.CloudformationRes?)
      || (a.TerraformRes? && b.TerraformRes?))
  {
    assert Kubernetes[2] != Kustomize[2];
    assert Cloudformation[0] != Kubernetes[0] && Cloudformation[0] != Kustomize[0] && Cloudformation[0] != Terraform[0];
    assert Terraform[0] != Kubernetes[0] && Terraform[0] != Kustomize[0];
  }

  /** `ResourceDiff`: `None` is a nil side. */
  datatype ResourceDiff = ResourceDiff(typ: DiffType, pre: Option<Resource>, post: Option<Resource>, diff: Changelog)

  /** The post side's identifier when there is one, else the pre side's, else
      "unknown". */
  function DiffIdentifier(rd: ResourceDiff): (id: string)
    ensures rd.post.Some? ==> id == Identifier(rd.post.value)
    ensures rd.post.None? && rd.pre.Some? ==> id == Identifier(rd.pre.value)
    ensures rd.post.None? && rd.pre.None? ==> id == "unknown"
  {
    if rd.post.Some? then Identifier(rd.post.value)
    else if rd.pre.Some? then Identifier(rd.pre.value)
    else "unknown"
  }

  /** The post side's name when there is one, else the pre side's, else
      "unknown". */
  function DiffName(rd: ResourceDiff): (n: string)
    ensures rd.post.Some? ==> n == Name(rd.post.value)
    ensures rd.post.None? && rd.pre.Some? ==> n == Name(rd.pre.value)
    ensures rd.post.None? && rd.pre.None? ==> n == "unknown"
  {
    if rd.post.Some? then Name(rd.post.value)
    else if rd.pre.Some? then Name(rd.pre.value)
    else "unknown"
  }

  /** `String()`: the identifier, then the name in brackets. */
  function DiffString(rd: ResourceDiff): (s: string)
    ensures HasPrefix(s, DiffIdentifier(rd)) && HasSuffix(s, "[" + DiffName(rd) + "]")
    ensures |s| == |DiffIdentifier(rd)| + |DiffName(rd)| + 2
  {
    var id, n := DiffIdentifier(rd), DiffName(rd);
    var s := id + "[" + n + "]";
    assert s[..|id|] == id;
    assert s[|s| - |"[" + n + "]"|..] == "[" + n + "]";
    s
  }

  /** The printed form reads back: when neither record's name holds `[`,
      two records print the same exactly when they have the same identifier
      and the same name. */
  lemma DiffStringReadsBack(a: ResourceDiff, b: ResourceDiff)
    requires '[' !in DiffName(a) && '[' !in DiffName(b)
    ensures DiffString(a) == DiffString(b) <==> DiffIdentifier(a) == DiffIdentifier(b) && DiffName(a) == DiffName(b)
  {
    var na, nb := DiffName(a), DiffName(b);
    if DiffString(a) == DiffString(b) {
      assert DiffIdentifier(a) + "[" + (na + "]") == DiffString(a);
      assert DiffIdentifier(b) + "[" + (nb + "]") == DiffString(b);
      assert '[' !in na + "]" && '[' !in nb + "]";
      LastBracketSplit(DiffIdentifier(a), na + "]", DiffIdentifier(b), nb + "]");
      assert na == (na + "]")[..|na|];
      assert nb == (nb + "]")[..|nb|];
    }
  }

  /** The `resourceType` field of the JSON form: unlike the identifier and the
      name, it prefers the pre side. */
  function ResourceType(rd: ResourceDiff): (t: string)
    ensures rd.pre.Some? ==> t == Type(rd.pre.value)
    ensures rd.pre.None? && rd.post.Some? ==> t == Type(rd.post.value)
    ensures rd.pre.None? && rd.post.None? ==> t == ""
  {
    if rd.pre.Some? then Type(rd.pre.value)
    else if rd.post.Some? then Type(rd.post.value)
    else ""
  }

  /** When both sides are present, the identifier and name are read from the
      post side while the resource type is read from the pre side; the type
      is the post side's too exactly when both sides are the same wrapper. */
  lemma SidesOfARecord(rd: ResourceDiff)
    requires rd.pre.Some? && rd.post.Some?
    ensures DiffIdentifier(rd) == Identifier(rd.post.value) && DiffName(rd) == Name(rd.post.value)
    ensures ResourceType(rd) == Type(rd.post.value) <==> Type(rd.pre.value) == Type(rd.post.value)
  {
  }

  // ---------------------------------------------------------------------------
  // Choosing an engine

  datatype DifferKind = KubeDiffer | KustomizeDiffer | TfDiffer | CfnDiffer | CdkDiffer

  /** The entrypoint type each engine is chosen for. */
  function HandledType(k: DifferKind): EntrypointType {
    match k
    case KubeDiffer => Kubernetes
    case KustomizeDiffer => Kustomize
    case TfDiffer => Terraform
    case CfnDiffer => Cloudformation
    case CdkDiffer => Cdk
  }

  // ---------------------------------------------------------------------------
  // The `%q` verb: a double-quoted Go string literal

  /** The lower-case hex digit `strconv` writes for `n`. */
  function HexDigit(n: nat): char
    requires n < 16
  {
    if n < 10 then ('0' as int + n) as char else ('a' as int + n - 10) as char
  }

  /** The value of a hex digit, as a Go string literal reads it. */
  function HexValue(c: char): (v: Option<nat>)
    ensures v.Some? ==> v.value < 16
  {
    if '0' <= c <= '9' then Some(c as int - '0' as int)
    else if 'a' <= c <= 'f' then Some(c as int - 'a' as int + 10)
    else if 'A' <= c <= 'F' then Some(c as int - 'A' as int + 10)
    else None
  }

  /** How `%q` writes one character between the double quotes: the quote
      and the backslash are escaped, the seven control characters with a
      letter escape get it, any other ASCII control character becomes `\x`
      and two hex digits, and everything else is written as it is. */
  function EscapeChar(c: char): string {
    if c == '"' then "\\\""
    else if c == '\\' then "\\\\"
    else if c as int == 7 then "\\a"
    else if c as int == 8 then "\\b"
    else if c as int == 12 then "\\f"
    else if c == '\n' then "\\n"
    else if c == '\r' then "\\r"
    else if c == '\t' then "\\t"
    else if c as int == 11 then "\\v"
    else if c as int < 0x20 || c as int == 0x7f then "\\x" + [HexDigit(c as int / 16), HexDigit(c as int % 16)]
    else [c]
  }

  function EscapeAll(s: string): string
    decreases |s|
  {
    if s == [] then [] else EscapeChar(s[0]) + EscapeAll(s[1..])
  }

  /** `fmt.Sprintf("%q", s)`. */
  function Quote(s: string): string {
    "\"" + EscapeAll(s) + "\""
  }

  /** The character a one-letter escape stands for. */
  function LetterEscape(c: char): Option<char> {
    if c == 'a' then Some(7 as char)
    else if c == 'b' then Some(8 as char)
    else if c == 'f' then Some(12 as char)
    else if c == 'n' then Some('\n')
    else if c == 'r' then Some('\r')
    else if c == 't' then Some('\t')
    else if c == 'v' then Some(11 as char)
    else if c == '"' then Some('"')
    else if c == '\\' then Some('\\')
    else None
  }

  function Prepend(c: char, rest: Option<string>): Option<string> {
    if rest.Some? then Some([c] + rest.value) else None
  }

  /** Reads the body of a double-quoted literal back; `None` for a body a Go
      literal cannot have (a bare quote, a raw newline, an unknown escape).
      Only the escapes `Quote` writes are read: the octal, `\u` and `\U`
      forms are not. */
  function Unescape(t: string): Option<string>
    decreases |t|
  {
    if t == [] then Some([])
    else if t[0] == '"' || t[0] == '\n' then None
    else if t[0] != '\\' then Prepend(t[0], Unescape(t[1..]))
    else if |t| >= 4 && t[1] == 'x' && HexValue(t[2]).Some? && HexValue(t[3]).Some? then
      Prepend((HexValue(t[2]).value * 16 + HexValue(t[3]).value) as char, Unescape(t[4..]))
    else if |t| >= 2 && LetterEscape(t[1]).Some? then Prepend(LetterEscape(t[1]).value, Unescape(t[2..]))
    else None
  }

  /** The inverse of `Quote`: the part of `strconv.Unquote` that reads
      double-quoted literals with the escapes `Quote` writes. */
  function Unquote(q: string): Option<string> {
    if |q| >= 2 && q[0] == '"' && q[|q| - 1] == '"' then Unescape(q[1..|q| - 1]) else None
  }

  /** The escape of one character reads back as that character. */
  lemma UnescapeChar(c: char, u: string)
    ensures Unescape(EscapeChar(c) + u) == Prepend(c, Unescape(u))
  {
    var e := EscapeChar(c);
    var t := e + u;
    if |e| == 1 {
      assert t[1..] == u;
    } else if |e| == 2 {
      assert t[2..] == u;
    } else {
      var n := c as int;
      assert t[4..] == u;
      assert HexValue(HexDigit(n / 16)) == Some(n / 16);
      assert HexValue(HexDigit(n % 16)) == Some(n % 16);
      assert (n / 16 * 16 + n % 16) as char == c;
    }
  }

  lemma {:induction false} UnescapeEscapeAll(s: string)
    ensures Unescape(EscapeAll(s)) == Some(s)
    decreases |s|
  {
    if s != [] {
      UnescapeChar(s[0], EscapeAll(s[1..]));
      UnescapeEscapeAll(s[1..]);
      assert [s[0]] + s[1..] == s;
    }
  }

  /** Whatever the string, its `%q` form reads back as that string: no
      character is lost or confused with the closing quote. */
  lemma QuoteRoundTrip(s: string)
    ensures Unquote(Quote(s)) == Some(s)
  {
    var q := Quote(s);
    assert q[1..|q| - 1] == EscapeAll(s);
    UnescapeEscapeAll(s);
  }

  /** A quote inside the type is escaped: `a"b` is written `"a\"b"`. */
  lemma QuoteEscapesQuote()
    ensures Quote("a\"b") == "\"a\\\"b\""
  {
    assert EscapeAll("a\"b") == "a" + EscapeAll("\"b");
    assert EscapeAll("\"b") == "\\\"" + EscapeAll("b");
    assert EscapeAll("b") == "b" + EscapeAll("");
  }

  /** `EntrypointDiffer`: one engine per supported type, an error naming the
      type otherwise. */
  function EntrypointDiffer(t: EntrypointType): (r: Result<DifferKind>)
    ensures r.Success? <==> t in {Kubernetes, Kustomize, Terraform, Cloudformation, Cdk}
    ensures r.Success? ==> HandledType(r.value) == t
    ensures r.Failure? ==> r.error == Msg("entrypoint type " + Quote(t) + " is not supported")
  {
    if t == Kubernetes then Success(KubeDiffer)
    else if t == Kustomize then Success(KustomizeDiffer)
    else if t == Terraform then Success(TfDiffer)
    else if t == Cloudformation then Success(CfnDiffer)
    else if t == Cdk then Success(CdkDiffer)
    else Failure(Msg("entrypoint type " + Quote(t) + " is not supported"))
  }

  /** Every engine is chosen for exactly the type it handles. */
  lemma DifferRoundTrip(k: DifferKind)
    ensures EntrypointDiffer(HandledType(k)) == Success(k)
  {
  }
}
