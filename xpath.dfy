/**
 * The XPath-like path parser (utils/xpath.py).
 *
 * A path such as `div[@class="x" and @id="y"]/ul/li[2]` is cut at its
 * slashes into statements, and each statement is parsed into a step: the
 * element name before the first '[', an attribute dictionary from a
 * bracket holding '@', and an integer list index from a bracket without
 * one.  The syntax borrows XPath 1.0 abbreviated location paths (section
 * 2.5 of the W3C XPath 1.0 recommendation) but the parser is textual: the
 * index is a 0-based list index and `and` is split as plain text.
 */
module XPath {
  import opened Py

  /** A parsed statement: `(name, attrs)` when `index` is None, otherwise
      the 3-tuple `(name, attrs, index)`. */
  datatype Step = Step(name: string, attrs: map<string, string>, index: Option<int>)

  /** What `to_pattern` returns: the lone step itself when the path has
      exactly one statement, otherwise the list of steps. */
  datatype Pattern = Single(step: Step) | Many(steps: seq<Step>)

  // ---------------------------------------------------------------------
  // Statements
  // ---------------------------------------------------------------------

  /** The stored path: the argument with a '/' added unless it ends in one. */
  function WithSlash(xpath: string): (r: string)
    requires xpath != ""
    ensures |r| >= 1 && r[|r| - 1] == '/'
    ensures r == xpath || r == xpath + "/"
    ensures xpath[|xpath| - 1] == '/' <==> r == xpath
  {
    if xpath[|xpath| - 1] == '/' then xpath else xpath + "/"
  }

  /** The text before each '/', in order; what follows the last '/' is
      never closed and is dropped. */
  function Closed(path: string): (r: seq<string>)
    ensures forall p :: p in r ==> '/' !in p
  {
    var ps := Split(path, "/");
    SplitPiecesAvoidSep(path, '/');
    ps[..|ps| - 1]
  }

  /** The statements of a path: its closed pieces that are not empty. */
  function Segments(path: string): (r: seq<string>)
    ensures forall p :: p in r ==> p != "" && '/' !in p
  {
    NonEmpty(Closed(path))
  }

  /** Nothing of a path ending in '/' is lost by cutting it into closed
      pieces: joining them back with '/' rebuilds it. */
  lemma ClosedJoin(path: string)
    requires path != "" && path[|path| - 1] == '/'
    ensures Join(Closed(path), "/") + "/" == path
  {
    var s := path[..|path| - 1];
    assert s + ['/'] == path;
    SplitSnoc(s, '/', '/');
    assert Closed(path) == Split(s, "/");
    JoinSplit(s, "/");
  }

  /** Statements joined by '/' with a closing '/' parse back to exactly
      those statements, in order. */
  lemma SegmentsOfJoin(names: seq<string>)
    requires forall k :: 0 <= k < |names| ==> names[k] != "" && '/' !in names[k]
    ensures Segments(Join(names, "/") + "/") == names
  {
    var path := Join(names, "/") + "/";
    if names == [] {
      assert Closed(path) == [""] by {
        assert path == "/";
        SplitSlash();
      }
      assert NonEmpty([""]) == [];
    } else {
      assert Closed(path) == names by {
        SplitJoinSlash(names);
        assert (names + [""])[..|names|] == names;
      }
      NonEmptyKeeps(names);
    }
  }

  lemma SplitSlash()
    ensures Split("/", "/") == ["", ""]
  {
    var s := "/";
    assert s[..1] == "/" && s[1..] == "";
  }

  lemma SplitJoinSlash(names: seq<string>)
    requires |names| >= 1
    requires forall k :: 0 <= k < |names| ==> '/' !in names[k]
    ensures Split(Join(names, "/") + "/", "/") == names + [""]
  {
    var ps := names + [""];
    JoinSnoc(names, "", "/");
    assert Join(ps, "/") == Join(names, "/") + "/";
    forall k | 0 <= k < |ps|
      ensures '/' !in ps[k]
    {
      if k < |names| {
        assert ps[k] == names[k];
      }
    }
    SplitJoin(ps, '/');
  }

  // ---------------------------------------------------------------------
  // Statement validity
  // ---------------------------------------------------------------------

  /** The bracket arguments of a statement: the pieces after each '['. */
  function Arguments(statement: string): seq<string>
  {
    Split(statement, "[")[1..]
  }

  /** An argument ends with its closing ']'. */
  predicate Bracketed(argument: string) {
    argument != "" && argument[|argument| - 1] == ']'
  }

  /** The check of each argument in order: `argument[-1]` raises
      IndexError on an empty one, and a last character other than ']'
      raises ValueError. */
  function CheckArguments(args: seq<string>): (r: Result<bool>)
    ensures r.Ok? <==> forall k :: 0 <= k < |args| ==> Bracketed(args[k])
    ensures r.Ok? ==> r.value
    ensures r.Raise? ==> r.exc == IndexError || r.exc == ValueError
  {
    if args == [] then Ok(true)
    else if args[0] == "" then Raise(IndexError)
    else if args[0][|args[0]| - 1] != ']' then Raise(ValueError)
    else CheckArguments(args[1..])
  }

  /** `is_valid_statement`: true, or the exception it raises. */
  function ValidStatement(statement: string): Result<bool>
  {
    var args := Arguments(statement);
    if |args| > 2 then Raise(ValueError) else CheckArguments(args)
  }

  /** A statement is valid exactly when it has at most two bracket
      arguments and each ends with ']'; more than two is a ValueError. */
  lemma ValidStatementIff(statement: string)
    ensures ValidStatement(statement).Ok? <==>
      |Arguments(statement)| <= 2 &&
      forall k :: 0 <= k < |Arguments(statement)| ==> Bracketed(Arguments(statement)[k])
    ensures |Arguments(statement)| > 2 ==> ValidStatement(statement) == Raise(ValueError)
    ensures ValidStatement(statement).Ok? ==> ValidStatement(statement).value
  {
  }

  // ---------------------------------------------------------------------
  // Attribute arguments
  // ---------------------------------------------------------------------

  /** One piece of an attribute argument: stripped, it must start with
      '@' (an empty piece raises IndexError at `attr[0]`) and hold exactly
      one '='; the key drops the '@' and the value its first and last
      characters. */
  function ParseAttr(attr: string): (r: Result<(string, string)>)
    ensures r.Raise? ==> r.exc == IndexError || r.exc == ValueError
  {
    var t := Strip(attr);
    if t == "" then Raise(IndexError)
    else if t[0] != '@' then Raise(ValueError)
    else
      var kv := Split(t, "=");
      if |kv| != 2 then Raise(ValueError)
      else Ok((Slice(kv[0], 1, |kv[0]|), Slice(kv[1], 1, -1)))
  }

  /** Each piece parsed on its own. */
  function ParsedAttrs(pieces: seq<string>): (r: seq<Result<(string, string)>>)
    ensures |r| == |pieces|
    ensures forall k :: 0 <= k < |pieces| ==> r[k] == ParseAttr(pieces[k])
  {
    seq(|pieces|, k requires 0 <= k < |pieces| => ParseAttr(pieces[k]))
  }

  /** The dictionary built from parsed pieces after `acc`: each piece's key
      is set to its value; the first bad piece raises. */
  function AttrsFold(acc: map<string, string>, parsed: seq<Result<(string, string)>>): (r: Result<map<string, string>>)
    decreases |parsed|
  {
    if parsed == [] then Ok(acc)
    else match parsed[0]
      case Raise(e) => Raise(e)
      case Ok(kv) => AttrsFold(acc[kv.0 := kv.1], parsed[1..])
  }

  /** One piece of the fold: a bad piece raises, a good one sets its key. */
  lemma AttrsFoldStep(acc: map<string, string>, parsed: seq<Result<(string, string)>>, k: nat)
    requires k < |parsed|
    ensures parsed[k].Raise? ==> AttrsFold(acc, parsed[k..]) == Raise(parsed[k].exc)
    ensures parsed[k].Ok? ==>
      AttrsFold(acc, parsed[k..]) == AttrsFold(acc[parsed[k].value.0 := parsed[k].value.1], parsed[k + 1..])
  {
    assert parsed[k..][0] == parsed[k] && parsed[k..][1..] == parsed[k + 1..];
  }

  /** The dictionary built from the pieces after `acc`. */
  function AttrsFrom(acc: map<string, string>, pieces: seq<string>): Result<map<string, string>>
  {
    AttrsFold(acc, ParsedAttrs(pieces))
  }

  /** A failing fold raises the first failing piece's exception. */
  lemma {:induction false} AttrsFoldRaises(acc: map<string, string>, parsed: seq<Result<(string, string)>>)
    requires AttrsFold(acc, parsed).Raise?
    ensures exists k :: 0 <= k < |parsed| && parsed[k] == Raise(AttrsFold(acc, parsed).exc)
    decreases |parsed|
  {
    if parsed[0].Ok? {
      var kv := parsed[0].value;
      AttrsFoldRaises(acc[kv.0 := kv.1], parsed[1..]);
      var k :| 0 <= k < |parsed[1..]| && parsed[1..][k] == Raise(AttrsFold(acc, parsed).exc);
      assert parsed[k + 1] == parsed[1..][k];
    }
  }

  /** The fold succeeds exactly when every piece parsed. */
  lemma {:induction false} AttrsFoldOk(acc: map<string, string>, parsed: seq<Result<(string, string)>>)
    ensures AttrsFold(acc, parsed).Ok? <==> forall k :: 0 <= k < |parsed| ==> parsed[k].Ok?
    decreases |parsed|
  {
    if parsed != [] && parsed[0].Ok? {
      var kv := parsed[0].value;
      var rest := parsed[1..];
      AttrsFoldOk(acc[kv.0 := kv.1], rest);
      assert forall k :: 0 < k < |parsed| ==> parsed[k] == rest[k - 1];
    }
  }

  /** An entry that no piece sets survives the fold unchanged. */
  lemma {:induction false} AttrsFoldKeeps(acc: map<string, string>, parsed: seq<Result<(string, string)>>, key: string)
    requires AttrsFold(acc, parsed).Ok? && key in acc
    requires forall k :: 0 <= k < |parsed| && parsed[k].Ok? ==> parsed[k].value.0 != key
    ensures key in AttrsFold(acc, parsed).value && AttrsFold(acc, parsed).value[key] == acc[key]
    decreases |parsed|
  {
    if parsed != [] {
      var kv := parsed[0].value;
      assert forall k :: 0 <= k < |parsed| - 1 ==> parsed[1..][k] == parsed[k + 1];
      AttrsFoldKeeps(acc[kv.0 := kv.1], parsed[1..], key);
    }
  }

  /** The value a piece sets survives the fold unless a later piece sets
      the same key. */
  lemma {:induction false} AttrsFoldLaterWins(acc: map<string, string>, parsed: seq<Result<(string, string)>>,
                                              k: nat, key: string, value: string)
    requires AttrsFold(acc, parsed).Ok?
    requires k < |parsed| && parsed[k] == Ok((key, value))
    requires forall j :: k < j < |parsed| && parsed[j].Ok? ==> parsed[j].value.0 != key
    ensures key in AttrsFold(acc, parsed).value && AttrsFold(acc, parsed).value[key] == value
    decreases k
  {
    var kv := parsed[0].value;
    assert forall j :: 0 <= j < |parsed| - 1 ==> parsed[1..][j] == parsed[j + 1];
    if k == 0 {
      AttrsFoldKeeps(acc[key := value], parsed[1..], key);
    } else {
      AttrsFoldLaterWins(acc[kv.0 := kv.1], parsed[1..], k - 1, key, value);
    }
  }

  /** A dictionary comes back exactly when every piece parses; otherwise
      the exception is an IndexError or a ValueError. */
  lemma AttrsFromOk(acc: map<string, string>, pieces: seq<string>)
    ensures AttrsFrom(acc, pieces).Ok? <==> forall k :: 0 <= k < |pieces| ==> ParseAttr(pieces[k]).Ok?
    ensures AttrsFrom(acc, pieces).Raise? ==>
      AttrsFrom(acc, pieces).exc == IndexError || AttrsFrom(acc, pieces).exc == ValueError
  {
    var parsed := ParsedAttrs(pieces);
    AttrsFoldOk(acc, parsed);
    if AttrsFold(acc, parsed).Raise? {
      AttrsFoldRaises(acc, parsed);
    }
  }

  /** Each piece's key ends up with that piece's value unless a later piece
      sets the same key: the later piece wins. */
  lemma AttrsFromLaterWins(acc: map<string, string>, pieces: seq<string>, k: nat, key: string, value: string)
    requires AttrsFrom(acc, pieces).Ok?
    requires k < |pieces| && ParseAttr(pieces[k]) == Ok((key, value))
    requires forall j :: k < j < |pieces| ==> ParseAttr(pieces[j]).Ok? ==> ParseAttr(pieces[j]).value.0 != key
    ensures key in AttrsFrom(acc, pieces).value && AttrsFrom(acc, pieces).value[key] == value
  {
    AttrsFoldLaterWins(acc, ParsedAttrs(pieces), k, key, value);
  }

  /** `parse_attrs_from_single_argument`: the argument split on the text
      `and`, piece by piece. */
  function ParseAttrs(argument: string): (r: Result<map<string, string>>)
    ensures r.Raise? ==> r.exc == IndexError || r.exc == ValueError
  {
    AttrsFromOk(map[], Split(argument, "and"));
    AttrsFrom(map[], Split(argument, "and"))
  }

  /** `@key=<q>value<q>` with no '=' in key or value and a quote that is
      neither '=' nor white space. */
  function AttrText(key: string, value: string, q: char): string {
    "@" + key + "=" + [q] + value + [q]
  }

  /** Such a text starts with '@' and is already stripped. */
  lemma AttrStripped(key: string, value: string, q: char)
    requires !IsSpace(q)
    ensures |AttrText(key, value, q)| > 0 && AttrText(key, value, q)[0] == '@'
    ensures Strip(AttrText(key, value, q)) == AttrText(key, value, q)
  {
    var t := AttrText(key, value, q);
    assert t[0] == '@' && t[|t| - 1] == q;
    StripKeeps(t);
  }

  /** It splits on '=' into `@key` and the quoted value. */
  lemma AttrSplits(key: string, value: string, q: char)
    requires '=' !in key && '=' !in value && q != '='
    ensures Split(AttrText(key, value, q), "=") == ["@" + key, [q] + value + [q]]
  {
    var a := "@" + key;
    var b := [q] + value + [q];
    assert AttrText(key, value, q) == a + ['='] + b;
    assert '=' !in a;
    SplitAtFirst(a, '=', b);
    SplitNoSep(b, '=');
  }

  /** `@key=<q>value<q>` parses back to key and value. */
  lemma AttrRoundTrip(key: string, value: string, q: char)
    requires '=' !in key && '=' !in value && q != '=' && !IsSpace(q)
    ensures ParseAttr(AttrText(key, value, q)) == Ok((key, value))
  {
    var t := AttrText(key, value, q);
    AttrStripped(key, value, q);
    AttrSplits(key, value, q);
    Unquoted(key, value, q);
  }

  /** Dropping the '@' and the quotes gives back key and value. */
  lemma Unquoted(key: string, value: string, q: char)
    ensures Slice("@" + key, 1, |"@" + key|) == key
    ensures Slice([q] + value + [q], 1, -1) == value
  {
    var a := "@" + key;
    var b := [q] + value + [q];
    assert Slice(a, 1, |a|) == a[1..];
    assert a[1..] == key;
    assert Slice(b, 1, -1) == b[1..|b| - 1];
    assert b[1..|b| - 1] == value;
  }

  // ---------------------------------------------------------------------
  // Statements
  // ---------------------------------------------------------------------

  /** An argument whose text before the closing ']' holds '@'. */
  predicate IsAttrArg(argument: string) {
    '@' in Slice(argument, 0, -1)
  }

  /** One bracket argument applied to the step built so far: an attribute
      argument replaces the whole dictionary, any other must be an int and
      sets the index. */
  function ApplyArgument(st: Step, argument: string): (r: Result<Step>)
    ensures r.Ok? ==> r.value.name == st.name
    ensures r.Raise? ==> r.exc == IndexError || r.exc == ValueError
  {
    var a := Slice(argument, 0, -1);
    if '@' in a then
      match ParseAttrs(a)
      case Raise(e) => Raise(e)
      case Ok(d) => Ok(st.(attrs := d))
    else
      match ParseInt(a)
      case None => Raise(ValueError)
      case Some(i) => Ok(st.(index := Some(i)))
  }

  /** The step after applying the arguments in order; the first failing
      argument raises. */
  function ArgsFrom(st: Step, args: seq<string>): (r: Result<Step>)
    ensures r.Ok? ==> r.value.name == st.name
    ensures r.Raise? ==> r.exc == IndexError || r.exc == ValueError
    decreases |args|
  {
    if args == [] then Ok(st)
    else match ApplyArgument(st, args[0])
      case Raise(e) => Raise(e)
      case Ok(st') => ArgsFrom(st', args[1..])
  }

  /** An attribute argument leaves the index alone; any other sets it and
      leaves the dictionary alone. */
  lemma ApplyArgumentFields(st: Step, argument: string)
    requires ApplyArgument(st, argument).Ok?
    ensures IsAttrArg(argument) ==> ApplyArgument(st, argument).value.index == st.index
    ensures !IsAttrArg(argument) ==>
      ApplyArgument(st, argument).value.index.Some? && ApplyArgument(st, argument).value.attrs == st.attrs
  {
  }

  /** An index is set exactly when one was set before or some argument is
      not an attribute argument. */
  lemma {:induction false} ArgsFromIndex(st: Step, args: seq<string>)
    requires ArgsFrom(st, args).Ok?
    ensures ArgsFrom(st, args).value.index.Some? <==>
      st.index.Some? || exists k :: 0 <= k < |args| && !IsAttrArg(args[k])
    decreases |args|
  {
    if args != [] {
      var st' := ApplyArgument(st, args[0]).value;
      var rest := args[1..];
      ApplyArgumentFields(st, args[0]);
      ArgsFromIndex(st', rest);
      assert ArgsFrom(st, args) == ArgsFrom(st', rest);
      if exists k :: 0 <= k < |rest| && !IsAttrArg(rest[k]) {
        var k :| 0 <= k < |rest| && !IsAttrArg(rest[k]);
        assert !IsAttrArg(args[k + 1]);
      }
      if exists k :: 0 <= k < |args| && !IsAttrArg(args[k]) {
        var k :| 0 <= k < |args| && !IsAttrArg(args[k]);
        if k > 0 {
          assert rest[k - 1] == args[k];
        }
      }
    }
  }

  /** With attribute arguments only, the index is left as it was. */
  lemma {:induction false} ArgsFromAttrsOnly(st: Step, args: seq<string>)
    requires ArgsFrom(st, args).Ok?
    requires forall k :: 0 <= k < |args| ==> IsAttrArg(args[k])
    ensures ArgsFrom(st, args).value.index == st.index
    decreases |args|
  {
    if args != [] {
      var st' := ApplyArgument(st, args[0]).value;
      var rest := args[1..];
      ApplyArgumentFields(st, args[0]);
      assert forall k :: 0 <= k < |rest| ==> rest[k] == args[k + 1];
      ArgsFromAttrsOnly(st', rest);
    }
  }

  /** With no attribute argument, the dictionary is left as it was. */
  lemma {:induction false} ArgsFromIndexesOnly(st: Step, args: seq<string>)
    requires ArgsFrom(st, args).Ok?
    requires forall k :: 0 <= k < |args| ==> !IsAttrArg(args[k])
    ensures ArgsFrom(st, args).value.attrs == st.attrs
    decreases |args|
  {
    if args != [] {
      var st' := ApplyArgument(st, args[0]).value;
      var rest := args[1..];
      ApplyArgumentFields(st, args[0]);
      assert forall k :: 0 <= k < |rest| ==> rest[k] == args[k + 1];
      ArgsFromIndexesOnly(st', rest);
    }
  }

  /** When the last argument is an attribute argument, its dictionary is
      the result's: a later attribute argument replaces an earlier one. */
  lemma {:induction false} ArgsFromLastAttrs(st: Step, args: seq<string>)
    requires ArgsFrom(st, args).Ok? && |args| > 0 && IsAttrArg(args[|args| - 1])
    ensures ParseAttrs(Slice(args[|args| - 1], 0, -1)) == Ok(ArgsFrom(st, args).value.attrs)
    decreases |args|
  {
    var st' := ApplyArgument(st, args[0]).value;
    if |args| > 1 {
      assert args[1..][|args| - 2] == args[|args| - 1];
      ArgsFromLastAttrs(st', args[1..]);
    }
  }

  /** `parse_arguments_from_statement` */
  function ParseStatement(statement: string): (r: Result<Step>)
    ensures r.Raise? ==> r.exc == IndexError || r.exc == ValueError
  {
    if '[' !in statement then Ok(Step(statement, map[], None))
    else match ValidStatement(statement)
      case Raise(e) => Raise(e)
      case Ok(_) =>
        var parts := Split(statement, "[");
        ArgsFrom(Step(parts[0], map[], None), parts[1..])
  }

  /** What a parsed statement is: its name is the text before the first
      '[' (the whole statement when it has none), it carries an index
      exactly when some argument has no '@', and no attributes when no
      argument has '@'; more than two arguments is a ValueError. */
  lemma ParseStatementShape(statement: string)
    ensures ParseStatement(statement).Ok? ==>
      && PrefixBefore(statement, '[', ParseStatement(statement).value.name)
      && (ParseStatement(statement).value.index.Some? <==>
            exists k :: 0 <= k < |Arguments(statement)| && !IsAttrArg(Arguments(statement)[k]))
      && ((forall k :: 0 <= k < |Arguments(statement)| ==> !IsAttrArg(Arguments(statement)[k])) ==>
            ParseStatement(statement).value.attrs == map[])
    ensures '[' !in statement ==> ParseStatement(statement) == Ok(Step(statement, map[], None))
    ensures |Arguments(statement)| > 2 ==> ParseStatement(statement) == Raise(ValueError)
  {
    SplitFirstPiece(statement, '[');
    if '[' !in statement {
      SplitNoSep(statement, '[');
      assert Arguments(statement) == [];
      assert statement[..|statement|] == statement;
    } else if ParseStatement(statement).Ok? {
      var parts := Split(statement, "[");
      ArgsFromIndex(Step(parts[0], map[], None), parts[1..]);
      if forall k :: 0 <= k < |parts[1..]| ==> !IsAttrArg(parts[1..][k]) {
        ArgsFromIndexesOnly(Step(parts[0], map[], None), parts[1..]);
      }
    }
  }

  /** The lone argument `x]` of `name[x]`. */
  lemma OneArgument(name: string, arg: string)
    requires '[' !in name && '[' !in arg
    ensures Split(name + "[" + arg, "[") == [name, arg]
    ensures '[' in name + "[" + arg
  {
    var s := name + "[" + arg;
    assert s == name + ['['] + arg;
    SplitAtFirst(name, '[', arg);
    SplitNoSep(arg, '[');
    assert s[|name|] == '[';
  }

  /** A statement with one well-closed argument is that argument applied
      to the bare name. */
  lemma ParseOneArgument(name: string, arg: string)
    requires '[' !in name && '[' !in arg && Bracketed(arg)
    ensures ParseStatement(name + "[" + arg) == ApplyArgument(Step(name, map[], None), arg)
  {
    var s := name + "[" + arg;
    OneArgument(name, arg);
    assert Arguments(s) == [arg];
    assert CheckArguments([arg]) == Ok(true);
    var st := Step(name, map[], None);
    assert ArgsFrom(st, [arg]) == ApplyArgument(st, arg) by {
      assert [arg][1..] == [];
      match ApplyArgument(st, arg) {
        case Raise(e) =>
        case Ok(st') => assert ArgsFrom(st', []) == Ok(st');
      }
    }
  }

  /** `str(i)` holds only a sign and digits. */
  lemma IntToStringChars(i: int)
    ensures '[' !in IntToString(i) && '@' !in IntToString(i)
  {
    var x := IntToString(i);
    if i < 0 {
      var d := NatToString(-i);
      assert x == "-" + d;
      assert forall k :: 1 <= k < |x| ==> x[k] == d[k - 1] && IsDigit(x[k]);
    } else {
      assert AllDigits(x);
    }
  }

  /** `name[<i>]` parses to the name with index i and no attributes. */
  lemma IndexRoundTrip(name: string, i: int)
    requires '[' !in name
    ensures ParseStatement(name + "[" + IntToString(i) + "]") == Ok(Step(name, map[], Some(i)))
  {
    var x := IntToString(i);
    var arg := x + "]";
    IntToStringChars(i);
    assert name + "[" + IntToString(i) + "]" == name + "[" + arg;
    ParseOneArgument(name, arg);
    assert Slice(arg, 0, -1) == x;
    ParseIntToString(i);
  }

  // ---------------------------------------------------------------------
  // Whole paths
  // ---------------------------------------------------------------------

  /** The steps after `done`, one per statement in order; the first
      statement that fails raises. */
  function StepsFrom(done: seq<Step>, statements: seq<string>): (r: Result<seq<Step>>)
    ensures r.Ok? <==> forall k :: 0 <= k < |statements| ==> ParseStatement(statements[k]).Ok?
    ensures r.Ok? ==>
      && |r.value| == |done| + |statements|
      && r.value[..|done|] == done
      && forall k :: 0 <= k < |statements| ==> ParseStatement(statements[k]) == Ok(r.value[|done| + k])
    decreases |statements|
  {
    if statements == [] then Ok(done)
    else match ParseStatement(statements[0])
      case Raise(e) => Raise(e)
      case Ok(st) => StepsFrom(done + [st], statements[1..])
  }

  /** The lone step unwrapped, otherwise the list. */
  function Shape(steps: seq<Step>): (p: Pattern)
    ensures p.Single? <==> |steps| == 1
  {
    if |steps| == 1 then Single(steps[0]) else Many(steps)
  }

  /** The pattern of a list of statements: the lone step for one
      statement, otherwise the list. */
  function PatternFrom(statements: seq<string>): Result<Pattern>
  {
    match StepsFrom([], statements)
    case Raise(e) => Raise(e)
    case Ok(steps) => Ok(Shape(steps))
  }

  /** `to_pattern` on a stored path. */
  function PatternOf(path: string): Result<Pattern>
  {
    PatternFrom(Segments(path))
  }

  /** Statements parse together when each of them does; one statement
      gives its lone step, otherwise one step per statement in order. */
  lemma PatternFromStatements(statements: seq<string>)
    ensures PatternFrom(statements).Ok? <==> forall k :: 0 <= k < |statements| ==> ParseStatement(statements[k]).Ok?
    ensures PatternFrom(statements).Ok? && |statements| == 1 ==>
      PatternFrom(statements) == Ok(Single(ParseStatement(statements[0]).value))
    ensures PatternFrom(statements).Ok? && |statements| != 1 ==>
      && PatternFrom(statements).value.Many?
      && |PatternFrom(statements).value.steps| == |statements|
      && forall k :: 0 <= k < |statements| ==>
           ParseStatement(statements[k]) == Ok(PatternFrom(statements).value.steps[k])
  {
    var r := StepsFrom([], statements);
    if r.Ok? {
      assert PatternFrom(statements) == Ok(Shape(r.value));
      assert |r.value| == |statements|;
      forall k | 0 <= k < |statements|
        ensures ParseStatement(statements[k]) == Ok(r.value[k])
      {
        assert 0 + k == k;
      }
      if |statements| == 1 {
        assert ParseStatement(statements[0]) == Ok(r.value[0]);
      } else {
        assert PatternFrom(statements) == Ok(Many(r.value));
      }
    } else {
      assert PatternFrom(statements) == Raise(r.exc);
    }
  }

  /** A path parses when each of its statements does; it gives the lone
      step for one statement and otherwise one step per statement in order. */
  lemma PatternOfStatements(path: string)
    ensures PatternOf(path).Ok? <==> forall k :: 0 <= k < |Segments(path)| ==> ParseStatement(Segments(path)[k]).Ok?
    ensures PatternOf(path).Ok? && |Segments(path)| == 1 ==>
      PatternOf(path) == Ok(Single(ParseStatement(Segments(path)[0]).value))
    ensures PatternOf(path).Ok? && |Segments(path)| != 1 ==>
      && PatternOf(path).value.Many?
      && |PatternOf(path).value.steps| == |Segments(path)|
      && forall k :: 0 <= k < |Segments(path)| ==>
           ParseStatement(Segments(path)[k]) == Ok(PatternOf(path).value.steps[k])
  {
    PatternFromStatements(Segments(path));
  }

  // ---------------------------------------------------------------------
  // The parser object
  // ---------------------------------------------------------------------

  class Xpath {
    /** The path, always ending in '/'. */
    const path: string
    /** `__xpath_statement_list` */
    var statements: seq<string>
    /** `parsed_statement_list` */
    var parsed: Pattern

    constructor(xpath: string)
      requires xpath != ""
      ensures path == WithSlash(xpath) && statements == [] && parsed == Many([])
    {
      path := WithSlash(xpath);
      statements := [];
      parsed := Many([]);
    }

    /** `Xpath(xpath)`: an empty path raises IndexError at `xpath[-1]`. */
    static method New(xpath: string) returns (r: Result<Xpath>)
      ensures r.Raise? <==> xpath == ""
      ensures r.Raise? ==> r.exc == IndexError
      ensures r.Ok? ==> fresh(r.value) && r.value.path == WithSlash(xpath)
                        && r.value.statements == [] && r.value.parsed == Many([])
    {
      if xpath == "" {
        return Raise(IndexError);
      }
      var x := new Xpath(xpath);
      return Ok(x);
    }

    /** `find_all_enclosed_statement`: one pass over the characters,
        closing a statement at each '/'. */
    method FindAllEnclosedStatement()
      modifies this`statements
      ensures statements == Segments(path)
    {
      var found: seq<string> := [];
      var statement := "";
      for k := 0 to |path|
        invariant Split(path[..k], "/") == found + [statement]
      {
        var letter := path[k];
        assert path[..k + 1] == path[..k] + [letter];
        SplitSnoc(path[..k], '/', letter);
        if letter != '/' {
          statement := statement + [letter];
        } else {
          found := found + [statement];
          statement := "";
        }
      }
      assert path[..|path|] == path;
      assert Closed(path) == found;
      statements := NonEmpty(found);
    }

    /** `is_valid_statement` */
    method IsValidStatement(statement: string) returns (r: Result<bool>)
      ensures r == ValidStatement(statement)
    {
      var args := Split(statement, "[")[1..];
      if |args| > 2 {
        return Raise(ValueError);
      }
      for k := 0 to |args|
        invariant CheckArguments(args) == CheckArguments(args[k..])
      {
        var argument := args[k];
        assert args[k..][1..] == args[k + 1..];
        if argument == "" {
          return Raise(IndexError);
        }
        if argument[|argument| - 1] != ']' {
          return Raise(ValueError);
        }
      }
      assert args[|args|..] == [];
      return Ok(true);
    }

    /** One pass of the loop of `parse_attrs_from_single_argument`: strip
        the piece, take `attr[0]` (IndexError when empty), check the '@',
        split on '=' into exactly two parts and unquote. */
    method ParseAttrPiece(piece: string) returns (r: Result<(string, string)>)
      ensures r == ParseAttr(piece)
    {
      var attr := Strip(piece);
      if attr == "" {
        return Raise(IndexError);
      }
      if attr[0] != '@' {
        return Raise(ValueError);
      }
      var kv := Split(attr, "=");
      if |kv| != 2 {
        return Raise(ValueError);
      }
      var key, value := kv[0], kv[1];
      key := Slice(key, 1, |key|);
      return Ok((key, Slice(value, 1, -1)));
    }

    /** `parse_attrs_from_single_argument` */
    method ParseAttrsFromSingleArgument(argument: string) returns (r: Result<map<string, string>>)
      ensures r == ParseAttrs(argument)
    {
      var attrs := Split(argument, "and");
      var dict: map<string, string> := map[];
      ghost var parsed := ParsedAttrs(attrs);
      ghost var whole := AttrsFrom(map[], attrs);
      for k := 0 to |attrs|
        invariant whole == AttrsFold(dict, parsed[k..])
      {
        AttrsFoldStep(dict, parsed, k);
        var kv := ParseAttrPiece(attrs[k]);
        assert kv == parsed[k];
        if kv.Raise? {
          return Raise(kv.exc);
        }
        dict := dict[kv.value.0 := kv.value.1];
      }
      assert parsed[|attrs|..] == [];
      return Ok(dict);
    }

    /** One pass of the argument loop of `parse_arguments_from_statement`:
        the closing ']' is dropped; an argument with '@' replaces the
        attributes, any other must be an integer and replaces the index. */
    method ApplyArgumentTo(st: Step, arg: string) returns (r: Result<Step>)
      ensures r == ApplyArgument(st, arg)
    {
      var argument := Slice(arg, 0, -1);
      if '@' in argument {
        var d := ParseAttrsFromSingleArgument(argument);
        if d.Raise? {
          return Raise(d.exc);
        }
        return Ok(st.(attrs := d.value));
      }
      var i := ParseInt(argument);
      if i.None? {
        return Raise(ValueError);
      }
      return Ok(st.(index := i));
    }

    /** `parse_arguments_from_statement` */
    method ParseArgumentsFromStatement(statement: string) returns (r: Result<Step>)
      ensures r == ParseStatement(statement)
    {
      var name := "";
      var attrs: map<string, string> := map[];
      var index: Option<int> := None;
      if '[' !in statement {
        name := statement;
      } else {
        var valid := IsValidStatement(statement);
        if valid.Raise? {
          return Raise(valid.exc);
        }
        var parts := Split(statement, "[");
        name := parts[0];
        var args := parts[1..];
        for k := 0 to |args|
          invariant ArgsFrom(Step(name, map[], None), args) == ArgsFrom(Step(name, attrs, index), args[k..])
        {
          assert args[k..][0] == args[k] && args[k..][1..] == args[k + 1..];
          var st := ApplyArgumentTo(Step(name, attrs, index), args[k]);
          if st.Raise? {
            return Raise(st.exc);
          }
          attrs, index := st.value.attrs, st.value.index;
        }
        assert args[|args|..] == [];
      }
      return Ok(Step(name, attrs, index));
    }

    /** `to_pattern`: the statements are found and stored, each is parsed
        in order, and the result is stored only when every one parses. */
    method ToPattern() returns (r: Result<Pattern>)
      modifies this`statements, this`parsed
      ensures statements == Segments(path)
      ensures r == PatternOf(path)
      ensures r.Ok? ==> parsed == r.value
      ensures r.Raise? ==> parsed == old(parsed)
    {
      FindAllEnclosedStatement();
      var ss := statements;
      var list: seq<Step> := [];
      for k := 0 to |ss|
        invariant statements == ss && parsed == old(parsed)
        invariant StepsFrom([], ss) == StepsFrom(list, ss[k..])
      {
        assert ss[k..][1..] == ss[k + 1..];
        var st := ParseArgumentsFromStatement(ss[k]);
        if st.Raise? {
          return Raise(st.exc);
        }
        list := list + [st.value];
      }
      assert ss[|ss|..] == [];
      parsed := if |list| == 1 then Single(list[0]) else Many(list);
      return Ok(parsed);
    }
  }
}
