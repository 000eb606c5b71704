/**
 * Front end of the annotation-driven handler generator (handlers_gen/codegen.go).
 *
 * The Go syntax tree is replaced by a small declaration model: function declarations carry
 * their doc-comment lines, receiver, name and parameter types; general declarations carry
 * their specs, of which type specs carry the struct fields with their raw tag literals.
 * The embedded JSON configuration is decoded by a caller-supplied function (`parseJson`).
 */
module Codegen {
  import opened Wrappers
  import opened Strings

  const ApiMarker := "apigen:api"
  const WrongJson := "Wrong json in comments"

  /** One (name, value) rule of an `apivalidator` tag, in textual order. */
  datatype Validator = Validator(name: string, value: string)

  /** A parameter-struct field as the templates see it. */
  datatype StructField = StructField(name: string, customName: string, typ: string, validators: seq<Validator>)

  /** The configuration object that follows the marker in a doc comment. */
  datatype JsonApi = JsonApi(url: string, auth: bool, verb: string)

  /** One marked method: an endpoint. */
  datatype ApiPoint = ApiPoint(
    receiver: string,
    methodName: string,
    params: seq<TypeExpr>,
    inParam: string,
    inParamFields: seq<StructField>,
    json: JsonApi)

  /** One parameter struct selected for a validation function. */
  datatype ApiParam = ApiParam(name: string, paramFields: seq<StructField>)

  // ----- declaration model -----

  /** A type expression: a plain identifier, or anything else (pointer, selector, ...). */
  datatype TypeExpr = Ident(name: string) | Composite

  datatype FieldDecl = FieldDecl(name: string, typ: TypeExpr, tag: Option<string>)

  /** A spec of a general declaration; `structFields` is None for a type that is not a struct. */
  datatype Spec = TypeSpec(name: string, structFields: Option<seq<FieldDecl>>) | OtherSpec

  datatype Recv = NoRecv | PtrRecv(typeName: string) | ValueRecv(typeName: string)

  datatype Decl =
    | FuncDecl(doc: Option<seq<string>>, recv: Recv, name: string, params: seq<TypeExpr>)
    | GenDecl(specs: seq<Spec>)

  // ----- parseValidators -----

  /** A tag the parser can slice: empty, or holding a double quote once backticks are trimmed. */
  predicate ParsableTag(tag: string)
  {
    tag == "" || '"' in Trim(tag, '`')
  }

  /** The rule text of a tag literal: backticks trimmed, cut at the first quote, quotes trimmed. */
  function TagBody(tag: string): string
    requires '"' in Trim(tag, '`')
  {
    var t := Trim(tag, '`');
    Trim(t[IndexOf(t, '"')..], '"')
  }

  function TagTokens(tag: string): seq<string>
    requires ParsableTag(tag)
  {
    if tag == "" then [] else Split(TagBody(tag), ',')
  }

  /** A token split at `=`: the name before the first `=`, the value up to the second one. */
  function RuleOf(token: string): Validator
  {
    var parts := Split(token, '=') + [""];
    Validator(parts[0], parts[1])
  }

  /** One rule per token, in token order. */
  function TokenRules(tokens: seq<string>): (rules: seq<Validator>)
    ensures |rules| == |tokens|
    ensures forall k :: 0 <= k < |tokens| ==> rules[k] == RuleOf(tokens[k])
  {
    if |tokens| == 0 then []
    else TokenRules(tokens[..|tokens| - 1]) + [RuleOf(tokens[|tokens| - 1])]
  }

  /** The rule list of a tag: one rule per comma-separated token, in order. */
  function Rules(tag: string): seq<Validator>
    requires ParsableTag(tag)
  {
    TokenRules(TagTokens(tag))
  }

  /** The value of the last `paramname` rule, or "" when there is none. */
  function LastParamName(rules: seq<Validator>): string
  {
    if |rules| == 0 then ""
    else if rules[|rules| - 1].name == "paramname" then rules[|rules| - 1].value
    else LastParamName(rules[..|rules| - 1])
  }

  /** parseValidators' loop: one rule per token, in order; the last `paramname` rule names the field. */
  method RulesOfTokens(tokens: seq<string>) returns (res: seq<Validator>, customName: string)
    ensures res == TokenRules(tokens)
    ensures customName == LastParamName(res)
  {
    res := [];
    customName := "";
    for i := 0 to |tokens|
      invariant res == TokenRules(tokens[..i])
      invariant customName == LastParamName(res)
    {
      assert tokens[..i + 1][..i] == tokens[..i];
      var parts := Split(tokens[i], '=') + [""];
      var rule := Validator(parts[0], parts[1]);
      assert rule == RuleOf(tokens[i]);
      assert (res + [rule])[..|res|] == res;
      res := res + [rule];
      if parts[0] == "paramname" {
        customName := parts[1];
      }
    }
    assert tokens[..|tokens|] == tokens;
  }

  method ParseValidators(s: string) returns (res: seq<Validator>, customName: string)
    requires ParsableTag(s)
    ensures s == "" ==> res == [] && customName == ""
    ensures res == Rules(s)
    ensures customName == LastParamName(res)
  {
    if s == "" {
      return [], "";
    }
    var t := Trim(s, '`');
    t := t[IndexOf(t, '"')..];
    t := Trim(t, '"');
    var tokens := Split(t, ',');
    assert tokens == TagTokens(s);
    res, customName := RulesOfTokens(tokens);
  }

  /** The custom name is the value of the last `paramname` rule; "" when no rule has that name. */
  lemma {:induction false} LastParamNameIsLast(rules: seq<Validator>)
    ensures (forall i :: 0 <= i < |rules| ==> rules[i].name != "paramname") ==> LastParamName(rules) == ""
    ensures forall i :: 0 <= i < |rules| && rules[i].name == "paramname" &&
                        (forall j :: i < j < |rules| ==> rules[j].name != "paramname")
                        ==> LastParamName(rules) == rules[i].value
  {
    if |rules| > 0 {
      var init := rules[..|rules| - 1];
      LastParamNameIsLast(init);
      assert forall i :: 0 <= i < |init| ==> init[i] == rules[i];
    }
  }

  /** A token's rule, read off its `=`-separated parts. */
  lemma RuleOfParts(token: string, parts: seq<string>)
    requires Split(token, '=') == parts
    ensures RuleOf(token) == Validator(parts[0], if |parts| > 1 then parts[1] else "")
  {
    var padded := parts + [""];
    assert padded[0] == parts[0];
    assert padded[1] == if |parts| > 1 then parts[1] else "";
  }

  lemma RuleOfName(name: string)
    requires '=' !in name
    ensures RuleOf(name) == Validator(name, "")
  {
    SplitAt(name, '=', "");
    RuleOfParts(name, [name]);
  }

  lemma RuleOfPair(name: string, value: string)
    requires '=' !in name && '=' !in value
    ensures RuleOf(name + "=" + value) == Validator(name, value)
  {
    SplitAt(name, '=', value);
    SplitAt(value, '=', "");
    assert name + "=" + value == name + ['='] + value;
    RuleOfParts(name + ['='] + value, [name] + [value]);
  }

  lemma RuleOfTriple(name: string, value: string, rest: string)
    requires '=' !in name && '=' !in value
    ensures RuleOf(name + ['='] + (value + ['='] + rest)) == Validator(name, value)
  {
    SplitAt(name, '=', value + ['='] + rest);
    SplitAt(value, '=', rest);
    RuleOfParts(name + ['='] + (value + ['='] + rest), [name] + ([value] + Split(rest, '=')));
  }

  lemma TripleText(name: string, value: string, rest: string)
    ensures name + "=" + value + "=" + rest == name + ['='] + (value + ['='] + rest)
  {
  }

  /** Name and value of a token: text before the first `=`, text between the first and the second. */
  lemma RuleOfToken(name: string, value: string, rest: string)
    requires '=' !in name && '=' !in value
    ensures RuleOf(name) == Validator(name, "")
    ensures RuleOf(name + "=" + value) == Validator(name, value)
    ensures RuleOf(name + "=" + value + "=" + rest) == Validator(name, value)
  {
    RuleOfName(name);
    RuleOfPair(name, value);
    RuleOfTriple(name, value, rest);
    TripleText(name, value, rest);
  }

  function RuleText(v: Validator): string
  {
    v.name + "=" + v.value
  }

  /** The tag literal `key:"n1=v1,n2=v2,..."` that a struct field would carry for `rules`. */
  function FormatTag(key: string, rules: seq<Validator>): string
  {
    "`" + key + ":\"" + Join(seq(|rules|, i requires 0 <= i < |rules| => RuleText(rules[i])), ",") + "\"`"
  }

  predicate PlainWord(s: string)
  {
    ',' !in s && '=' !in s && '"' !in s && '`' !in s
  }

  lemma JoinAvoids(parts: seq<string>, sep: string, c: char)
    requires c !in sep
    requires forall i :: 0 <= i < |parts| ==> c !in parts[i]
    ensures c !in Join(parts, sep)
  {
    if |parts| > 1 {
      JoinAvoids(parts[1..], sep, c);
    }
  }

  lemma TrimEnclosing(inner: string, c: char)
    requires |inner| == 0 || (inner[0] != c && inner[|inner| - 1] != c)
    ensures Trim([c] + inner + [c], c) == inner
  {
    var s := [c] + inner + [c];
    assert s[1..] == inner + [c];
    if |inner| == 0 {
      assert TrimLeft(s, c) == TrimLeft([c], c) == TrimLeft([], c);
    } else {
      assert TrimLeft(s, c) == inner + [c];
      assert (inner + [c])[..|inner|] == inner;
      assert TrimRight(inner + [c], c) == TrimRight(inner, c) == inner;
    }
  }

  /** The rule text of a well-formed tag literal is the text between its quotes. */
  lemma TagBodyOf(key: string, body: string)
    requires '"' !in key && (|key| == 0 || key[0] != '`')
    requires '"' !in body
    ensures ParsableTag("`" + key + ":\"" + body + "\"`")
    ensures TagBody("`" + key + ":\"" + body + "\"`") == body
  {
    TagUnquoted(key, body);
    QuoteCut(key, body);
    if |body| > 0 {
      assert body[0] in body && body[|body| - 1] in body;
    }
    TrimEnclosing(body, '"');
  }

  /** Trimming the backticks of a tag literal leaves its key and quoted text. */
  lemma TagUnquoted(key: string, body: string)
    requires |key| == 0 || key[0] != '`'
    ensures Trim("`" + key + ":\"" + body + "\"`", '`') == key + ":\"" + body + "\""
  {
    var inner := key + ":\"" + body + "\"";
    assert "`" + key + ":\"" + body + "\"`" == ['`'] + inner + ['`'];
    TrimEnclosing(inner, '`');
  }

  /** Cutting a key and quoted text at its first quote leaves the quoted text. */
  lemma QuoteCut(key: string, body: string)
    requires '"' !in key
    ensures var inner := key + ":\"" + body + "\"";
            '"' in inner && inner[IndexOf(inner, '"')..] == ['"'] + body + ['"']
  {
    var inner := key + ":\"" + body + "\"";
    IndexOfAfterPrefix(key + ":", '"', body + "\"");
    assert inner == (key + ":") + ['"'] + (body + "\"");
  }

  /** Parsing a formatted tag gives back its rules (the generator's rule parse is lossless). */
  lemma TagRoundTrip(key: string, rules: seq<Validator>)
    requires |rules| >= 1
    requires '"' !in key && (|key| == 0 || key[0] != '`')
    requires forall i :: 0 <= i < |rules| ==> PlainWord(rules[i].name) && PlainWord(rules[i].value)
    ensures ParsableTag(FormatTag(key, rules))
    ensures Rules(FormatTag(key, rules)) == rules
  {
    var texts := seq(|rules|, i requires 0 <= i < |rules| => RuleText(rules[i]));
    var body := Join(texts, ",");
    forall i | 0 <= i < |texts| ensures '"' !in texts[i] && ',' !in texts[i] {
      assert texts[i] == rules[i].name + "=" + rules[i].value;
    }
    JoinAvoids(texts, ",", '"');
    TagBodyOf(key, body);
    var tag := FormatTag(key, rules);
    assert tag == "`" + key + ":\"" + body + "\"`";
    SplitJoin(texts, ',');
    assert TagTokens(tag) == texts;
    forall i | 0 <= i < |rules| ensures RuleOf(texts[i]) == rules[i] {
      RuleOfToken(rules[i].name, rules[i].value, "");
    }
  }

  // ----- isGenApi -----

  /** Index of the first line holding the marker. */
  function FirstMarkedLine(lines: seq<string>): (r: Option<nat>)
    ensures r.None? <==> forall i :: 0 <= i < |lines| ==> !Contains(lines[i], ApiMarker)
    ensures r.Some? ==> r.value < |lines| && Contains(lines[r.value], ApiMarker)
    ensures r.Some? ==> forall j :: 0 <= j < r.value ==> !Contains(lines[j], ApiMarker)
  {
    if |lines| == 0 then None
    else if Contains(lines[0], ApiMarker) then Some(0)
    else
      match FirstMarkedLine(lines[1..])
      case None => None
      case Some(i) => Some(i + 1)
  }

  /** isGenApi: no doc comment means unmarked; otherwise the first doc line holding the marker. */
  function IsGenApi(doc: Option<seq<string>>): (r: (bool, string))
    ensures doc.None? ==> r == (false, "")
    ensures !r.0 ==> r.1 == ""
    ensures r.0 <==> doc.Some? && exists i :: 0 <= i < |doc.value| && Contains(doc.value[i], ApiMarker)
    ensures r.0 ==> exists i :: 0 <= i < |doc.value| && doc.value[i] == r.1 && Contains(r.1, ApiMarker) &&
                               forall j :: 0 <= j < i ==> !Contains(doc.value[j], ApiMarker)
  {
    match doc
    case None => (false, "")
    case Some(lines) =>
      match FirstMarkedLine(lines)
      case None => (false, "")
      case Some(i) => (true, lines[i])
  }

  // ----- findFuncDecl -----

  predicate Marked(d: Decl)
  {
    d.FuncDecl? && IsGenApi(d.doc).0
  }

  /** The JSON text after the marker: the marker line from its first `{`. */
  function ConfigText(d: Decl): string
    requires Marked(d) && '{' in IsGenApi(d.doc).1
  {
    var comment := IsGenApi(d.doc).1;
    comment[IndexOf(comment, '{')..]
  }

  function LookupSpec(specs: seq<Spec>, name: string): Option<Spec>
  {
    if |specs| == 0 then None
    else if specs[0].TypeSpec? && specs[0].name == name then Some(specs[0])
    else LookupSpec(specs[1..], name)
  }

  /** What an identifier resolves to: the first type spec of that name in the file. */
  function ResolveType(decls: seq<Decl>, name: string): Option<Spec>
  {
    if |decls| == 0 then None
    else
      var here := if decls[0].GenDecl? then LookupSpec(decls[0].specs, name) else None;
      if here.Some? then here else ResolveType(decls[1..], name)
  }

  function TagText(f: FieldDecl): string
  {
    if f.tag.Some? then f.tag.value else ""
  }

  predicate DescribableField(f: FieldDecl)
  {
    f.typ.Ident? && ParsableTag(TagText(f))
  }

  predicate AllDescribable(fields: seq<FieldDecl>)
  {
    forall i :: 0 <= i < |fields| ==> DescribableField(fields[i])
  }

  /** The descriptor of one struct field (getStructFields2's loop body). */
  function FieldDescriptor(f: FieldDecl): StructField
    requires DescribableField(f)
  {
    var rules := Rules(TagText(f));
    StructField(f.name, LastParamName(rules), f.typ.name, rules)
  }

  function FieldDescriptors(fields: seq<FieldDecl>): seq<StructField>
    requires AllDescribable(fields)
  {
    seq(|fields|, i requires 0 <= i < |fields| => FieldDescriptor(fields[i]))
  }

  /** getParamType: the name of an identifier-typed parameter. */
  function GetParamType(t: TypeExpr): (name: string)
    requires t.Ident?
    ensures Ident(name) == t
  {
    t.name
  }

  /** The struct fields behind a method's second parameter, when it names a struct of the file. */
  function ParamStruct(decls: seq<Decl>, d: Decl): Option<seq<FieldDecl>>
    requires d.FuncDecl?
  {
    if |d.params| < 2 || !d.params[1].Ident? then None
    else
      match ResolveType(decls, d.params[1].name)
      case Some(TypeSpec(_, Some(fields))) => Some(fields)
      case _ => None
  }

  /** What findFuncDecl needs of a marked method so that none of its type assertions fails. */
  predicate ScannableFunc(decls: seq<Decl>, d: Decl)
  {
    Marked(d) ==>
      && d.recv.PtrRecv?
      && '{' in IsGenApi(d.doc).1
      && ParamStruct(decls, d).Some?
      && AllDescribable(ParamStruct(decls, d).value)
      && forall i :: 0 <= i < |ParamStruct(decls, d).value| ==> ParamStruct(decls, d).value[i].tag.Some?
  }

  function EndpointOf(decls: seq<Decl>, d: Decl, api: JsonApi): ApiPoint
    requires Marked(d) && ScannableFunc(decls, d)
  {
    ApiPoint(d.recv.typeName, d.name, d.params, GetParamType(d.params[1]),
             FieldDescriptors(ParamStruct(decls, d).value), api)
  }

  /** Scanning one more declaration: an unmarked one adds nothing, a marked one its endpoint, or the fatal error. */
  function ScanStep(decls: seq<Decl>, acc: Result<seq<ApiPoint>, string>, d: Decl,
                    parseJson: string -> Option<JsonApi>): Result<seq<ApiPoint>, string>
    requires ScannableFunc(decls, d)
  {
    match acc
    case Err(e) => Err(e)
    case Ok(eps) =>
      if !Marked(d) then Ok(eps)
      else
        match parseJson(ConfigText(d))
        case None => Err(WrongJson)
        case Some(api) => Ok(eps + [EndpointOf(decls, d, api)])
  }

  /** What findFuncDecl needs of every declaration of the file. */
  predicate AllScannable(decls: seq<Decl>)
  {
    forall i :: 0 <= i < |decls| ==> ScannableFunc(decls, decls[i])
  }

  /** The endpoints of the marked methods among the first `n` declarations, in order; fatal on bad JSON. */
  function Endpoints(decls: seq<Decl>, n: nat, parseJson: string -> Option<JsonApi>): Result<seq<ApiPoint>, string>
    requires AllScannable(decls) && n <= |decls|
  {
    if n == 0 then Ok([])
    else ScanStep(decls, Endpoints(decls, n - 1, parseJson), decls[n - 1], parseJson)
  }

  /** The endpoints of one receiver, in the order of `eps`. */
  function ForReceiver(eps: seq<ApiPoint>, recv: string): seq<ApiPoint>
  {
    if |eps| == 0 then []
    else ForReceiver(eps[..|eps| - 1], recv) + (if eps[|eps| - 1].receiver == recv then [eps[|eps| - 1]] else [])
  }

  function Receivers(eps: seq<ApiPoint>): set<string>
  {
    set e | e in eps :: e.receiver
  }

  /** `m` holds exactly the receivers of `eps`, each with its own endpoints in order. */
  ghost predicate GroupedByReceiver(m: map<string, seq<ApiPoint>>, eps: seq<ApiPoint>)
  {
    && m.Keys == Receivers(eps)
    && forall r :: r in m ==> m[r] == ForReceiver(eps, r)
  }

  /** A receiver's list holds exactly the endpoints of `eps` that belong to it. */
  lemma {:induction false} ForReceiverMembers(eps: seq<ApiPoint>, recv: string)
    ensures forall e :: e in ForReceiver(eps, recv) <==> e in eps && e.receiver == recv
  {
    if |eps| > 0 {
      ForReceiverMembers(eps[..|eps| - 1], recv);
      assert eps == eps[..|eps| - 1] + [eps[|eps| - 1]];
    }
  }

  lemma ReceiversSnoc(eps: seq<ApiPoint>, e: ApiPoint)
    ensures Receivers(eps + [e]) == Receivers(eps) + {e.receiver}
  {
    assert forall x :: x in eps + [e] <==> x in eps || x == e;
  }

  lemma ForReceiverEmpty(eps: seq<ApiPoint>, recv: string)
    requires recv !in Receivers(eps)
    ensures ForReceiver(eps, recv) == []
  {
    ForReceiverMembers(eps, recv);
  }

  /** Adding one endpoint to a grouping: its receiver's list grows by it, or starts with it. */
  lemma GroupedSnoc(m: map<string, seq<ApiPoint>>, eps: seq<ApiPoint>, e: ApiPoint)
    requires GroupedByReceiver(m, eps)
    ensures GroupedByReceiver(m[e.receiver := if e.receiver in m then m[e.receiver] + [e] else [e]], eps + [e])
  {
    var m2 := m[e.receiver := if e.receiver in m then m[e.receiver] + [e] else [e]];
    ReceiversSnoc(eps, e);
    assert m2.Keys == Receivers(eps + [e]);
    assert (eps + [e])[..|eps|] == eps;
    forall r | r in m2
      ensures m2[r] == ForReceiver(eps + [e], r)
    {
      assert ForReceiver(eps + [e], r) == ForReceiver(eps, r) + (if e.receiver == r then [e] else []);
      if r == e.receiver && e.receiver !in m {
        ForReceiverEmpty(eps, r);
      }
    }
  }

  method FindFuncDecl(decls: seq<Decl>, parseJson: string -> Option<JsonApi>)
    returns (r: Result<map<string, seq<ApiPoint>>, string>)
    requires AllScannable(decls)
    ensures r.Err? <==> Endpoints(decls, |decls|, parseJson).Err?
    ensures r.Err? ==> r.error == WrongJson
    ensures r.Ok? ==> GroupedByReceiver(r.value, Endpoints(decls, |decls|, parseJson).value)
  {
    var res: map<string, seq<ApiPoint>> := map[];
    ghost var eps: seq<ApiPoint> := [];
    for i := 0 to |decls|
      invariant Endpoints(decls, i, parseJson) == Ok(eps)
      invariant GroupedByReceiver(res, eps)
    {
      var d := decls[i];
      if d.FuncDecl? {
        var marked, comment := IsGenApi(d.doc).0, IsGenApi(d.doc).1;
        if marked {
          var json := parseJson(ConfigText(d));
          if json.None? {
            EndpointsErrSticks(decls, i + 1, |decls|, parseJson);
            return Err(WrongJson);
          }
          var name := d.recv.typeName;
          var apiPoint := EndpointOf(decls, d, json.value);
          GroupedSnoc(res, eps, apiPoint);
          if name in res {
            res := res[name := res[name] + [apiPoint]];
          } else {
            res := res[name := [apiPoint]];
          }
          eps := eps + [apiPoint];
        }
      }
    }
    r := Ok(res);
  }

  /** Once a marked method's JSON fails to parse, the scan of every longer prefix fails too (the generator exits). */
  lemma {:induction false} EndpointsErrSticks(decls: seq<Decl>, n: nat, m: nat, parseJson: string -> Option<JsonApi>)
    requires AllScannable(decls) && n <= m <= |decls|
    requires Endpoints(decls, n, parseJson).Err?
    ensures Endpoints(decls, m, parseJson).Err?
    decreases m
  {
    if m > n {
      EndpointsErrSticks(decls, n, m - 1, parseJson);
    }
  }

  // ----- getParamsStructNames -----

  function ParamNamesOf(funcDecl: map<string, seq<ApiPoint>>, recvs: set<string>): set<string>
  {
    set r, e | r in recvs && r in funcDecl && e in funcDecl[r] :: e.inParam
  }

  /** The names of all parameter structs: the InParam of every endpoint of every receiver. */
  method GetParamsStructNames(funcDecl: map<string, seq<ApiPoint>>) returns (res: set<string>)
    ensures res == set r, e | r in funcDecl && e in funcDecl[r] :: e.inParam
  {
    res := {};
    var todo := funcDecl.Keys;
    while todo != {}
      invariant todo <= funcDecl.Keys
      invariant res == ParamNamesOf(funcDecl, funcDecl.Keys - todo)
      decreases todo
    {
      var r :| r in todo;
      var points := funcDecl[r];
      ghost var before := res;
      for j := 0 to |points|
        invariant res == before + set k | 0 <= k < j :: points[k].inParam
      {
        res := res + {points[j].inParam};
      }
      assert (set k | 0 <= k < |points| :: points[k].inParam) == set e | e in points :: e.inParam by {
        forall e | e in points ensures e.inParam in set k | 0 <= k < |points| :: points[k].inParam {
          var k :| 0 <= k < |points| && points[k] == e;
        }
      }
      assert ParamNamesOf(funcDecl, funcDecl.Keys - (todo - {r}))
          == ParamNamesOf(funcDecl, funcDecl.Keys - todo) + set e | e in points :: e.inParam;
      todo := todo - {r};
    }
    assert funcDecl.Keys - {} == funcDecl.Keys;
  }

  // ----- findStructDecl and getStructFields2 -----

  /** A general declaration whose first spec is a type named in `names`. */
  predicate Selected(d: Decl, names: set<string>)
  {
    d.GenDecl? && |d.specs| > 0 && d.specs[0].TypeSpec? && d.specs[0].name in names
  }

  /** What getStructFields2 needs of a selected spec: a struct of identifier-typed, parsable fields. */
  predicate DescribableStruct(s: Spec)
  {
    s.TypeSpec? && s.structFields.Some? && AllDescribable(s.structFields.value)
  }

  method GetStructFields2(s: Spec) returns (res: seq<StructField>)
    requires DescribableStruct(s)
    ensures res == FieldDescriptors(s.structFields.value)
    ensures forall i :: 0 <= i < |res| ==> res[i].name == s.structFields.value[i].name
    ensures forall i :: 0 <= i < |res| && s.structFields.value[i].tag.None? ==>
              res[i].validators == [] && res[i].customName == ""
  {
    var fields := s.structFields.value;
    res := [];
    for ix := 0 to |fields|
      invariant |res| == ix
      invariant res == FieldDescriptors(fields[..ix])
    {
      var descriptor := GetStructField(fields[ix]);
      DescriptorsSnoc(fields, ix);
      res := res + [descriptor];
    }
    assert fields[..|fields|] == fields;
    FieldDescriptorsNamed(fields);
  }

  lemma DescriptorsSnoc(fields: seq<FieldDecl>, ix: nat)
    requires AllDescribable(fields) && ix < |fields|
    ensures AllDescribable(fields[..ix]) && AllDescribable(fields[..ix + 1])
    ensures FieldDescriptors(fields[..ix + 1]) == FieldDescriptors(fields[..ix]) + [FieldDescriptor(fields[ix])]
  {
  }

  /** getStructFields2's loop body: the tag parsed into rules and the custom name. */
  method GetStructField(f: FieldDecl) returns (descriptor: StructField)
    requires DescribableField(f)
    ensures descriptor == FieldDescriptor(f)
  {
    var tag := if f.tag.Some? then f.tag.value else "";
    var v, cn := ParseValidators(tag);
    descriptor := StructField(f.name, cn, f.typ.name, v);
  }

  /** Descriptors keep the field names, and an untagged field has no rules and no custom name. */
  lemma FieldDescriptorsNamed(fields: seq<FieldDecl>)
    requires AllDescribable(fields)
    ensures forall i :: 0 <= i < |fields| ==> FieldDescriptors(fields)[i].name == fields[i].name
    ensures forall i :: 0 <= i < |fields| && fields[i].tag.None? ==>
              FieldDescriptors(fields)[i].validators == [] && FieldDescriptors(fields)[i].customName == ""
  {
  }

  predicate SelectedDescribable(decls: seq<Decl>, names: set<string>)
  {
    forall i :: 0 <= i < |decls| && Selected(decls[i], names) ==> DescribableStruct(decls[i].specs[0])
  }

  /** The parameter structs of a declaration list: a later declaration of a name replaces an earlier one. */
  function StructDecls(decls: seq<Decl>, names: set<string>): map<string, ApiParam>
    requires SelectedDescribable(decls, names)
  {
    if |decls| == 0 then map[]
    else
      var m := StructDecls(decls[..|decls| - 1], names);
      var d := decls[|decls| - 1];
      if Selected(d, names) then
        m[d.specs[0].name := ApiParam(d.specs[0].name, FieldDescriptors(d.specs[0].structFields.value))]
      else m
  }

  method FindStructDecl(decls: seq<Decl>, names: set<string>) returns (res: map<string, ApiParam>)
    requires forall i :: 0 <= i < |decls| && decls[i].GenDecl? ==> |decls[i].specs| > 0
    requires SelectedDescribable(decls, names)
    ensures res == StructDecls(decls, names)
  {
    res := map[];
    for i := 0 to |decls|
      invariant res == StructDecls(decls[..i], names)
    {
      var d := decls[i];
      assert decls[..i + 1][..i] == decls[..i];
      if d.GenDecl? && d.specs[0].TypeSpec? {
        var structDecl := d.specs[0];
        if structDecl.name in names {
          var fields := GetStructFields2(structDecl);
          res := res[structDecl.name := ApiParam(structDecl.name, fields)];
        }
      }
    }
    assert decls[..|decls|] == decls;
  }

  /** Exactly the selected type names become keys, each keyed by its own name. */
  lemma {:induction false} StructDeclsKeys(decls: seq<Decl>, names: set<string>)
    requires SelectedDescribable(decls, names)
    ensures StructDecls(decls, names).Keys == set i | 0 <= i < |decls| && Selected(decls[i], names) :: decls[i].specs[0].name
    ensures StructDecls(decls, names).Keys <= names
    ensures forall n :: n in StructDecls(decls, names) ==> StructDecls(decls, names)[n].name == n
  {
    if |decls| > 0 {
      var init := decls[..|decls| - 1];
      StructDeclsKeys(init, names);
      var last := |decls| - 1;
      assert forall i :: 0 <= i < |init| ==> init[i] == decls[i];
      var ks := set i | 0 <= i < |decls| && Selected(decls[i], names) :: decls[i].specs[0].name;
      var ks0 := set i | 0 <= i < |init| && Selected(init[i], names) :: init[i].specs[0].name;
      if Selected(decls[last], names) {
        assert ks == ks0 + {decls[last].specs[0].name};
      } else {
        assert ks == ks0;
      }
    }
  }

  /** The descriptor under a name comes from the last declaration of that name. */
  lemma {:induction false} StructDeclsLastWins(decls: seq<Decl>, names: set<string>, i: nat)
    requires SelectedDescribable(decls, names)
    requires i < |decls| && Selected(decls[i], names)
    requires forall j :: i < j < |decls| ==> !(Selected(decls[j], names) && decls[j].specs[0].name == decls[i].specs[0].name)
    ensures decls[i].specs[0].name in StructDecls(decls, names)
    ensures StructDecls(decls, names)[decls[i].specs[0].name].paramFields == FieldDescriptors(decls[i].specs[0].structFields.value)
  {
    var init := decls[..|decls| - 1];
    if i < |decls| - 1 {
      assert forall j :: 0 <= j < |init| ==> init[j] == decls[j];
      StructDeclsLastWins(init, names, i);
    }
  }

  // ----- the handler's fields and the Validate function's fields -----

  /** Spec `s` of declaration `d` declares the type `n`. */
  predicate DeclaresType(d: Decl, s: nat, n: string)
  {
    d.GenDecl? && s < |d.specs| && d.specs[s].TypeSpec? && d.specs[s].name == n
  }

  lemma {:induction false} LookupSpecAbsent(specs: seq<Spec>, n: string)
    requires forall s :: 0 <= s < |specs| ==> !(specs[s].TypeSpec? && specs[s].name == n)
    ensures LookupSpec(specs, n).None?
  {
    if |specs| > 0 {
      assert forall s :: 0 <= s < |specs| - 1 ==> specs[1..][s] == specs[s + 1];
      LookupSpecAbsent(specs[1..], n);
    }
  }

  /** A type declared as the first spec of a declaration, and nowhere before it, resolves to that spec. */
  lemma {:induction false} ResolveFirstDeclaration(decls: seq<Decl>, n: string, i: nat)
    requires i < |decls| && DeclaresType(decls[i], 0, n)
    requires forall j, s :: 0 <= j < i ==> !DeclaresType(decls[j], s, n)
    ensures ResolveType(decls, n) == Some(decls[i].specs[0])
  {
    if i > 0 {
      if decls[0].GenDecl? {
        forall s | 0 <= s < |decls[0].specs|
          ensures !(decls[0].specs[s].TypeSpec? && decls[0].specs[s].name == n)
        {
          assert !DeclaresType(decls[0], s, n);
        }
        LookupSpecAbsent(decls[0].specs, n);
      }
      var rest := decls[1..];
      forall j, s | 0 <= j < i - 1
        ensures !DeclaresType(rest[j], s, n)
      {
        assert rest[j] == decls[j + 1];
      }
      ResolveFirstDeclaration(rest, n, i - 1);
    }
  }

  /**
   * When the params struct of a marked method is declared once, as the first spec of its
   * declaration, the Validate function rendered from findStructDecl's map checks exactly the
   * fields the handler decodes.
   */
  lemma ValidateSeesHandlerFields(decls: seq<Decl>, names: set<string>, d: Decl, api: JsonApi, i: nat)
    requires SelectedDescribable(decls, names)
    requires Marked(d) && ScannableFunc(decls, d)
    requires d.params[1].name in names
    requires i < |decls| && DeclaresType(decls[i], 0, d.params[1].name)
    requires forall j, s :: 0 <= j < |decls| && DeclaresType(decls[j], s, d.params[1].name) ==> j == i && s == 0
    ensures d.params[1].name in StructDecls(decls, names)
    ensures StructDecls(decls, names)[d.params[1].name].paramFields == EndpointOf(decls, d, api).inParamFields
  {
    var n := d.params[1].name;
    ResolveFirstDeclaration(decls, n, i);
    assert Selected(decls[i], names);
    assert ParamStruct(decls, d) == decls[i].specs[0].structFields;
    forall j | i < j < |decls|
      ensures !(Selected(decls[j], names) && decls[j].specs[0].name == n)
    {
      assert DeclaresType(decls[j], 0, n) ==> j == i;
    }
    StructDeclsLastWins(decls, names, i);
  }
}
