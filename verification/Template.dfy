/** Command templates: `$name` placeholders replaced by the arguments of a job. */
module Templates {
  import opened Common

  type Arguments = map<string, string>

  /** What a text becomes, read outside a placeholder; None when a name is unknown. */
  function Plain(s: string, args: Arguments): Option<string> {
    if s == [] then Some("")
    else if s[0] == '$' then Placeholder(s[1..], "", args)
    else Prepend([s[0]], Plain(s[1..], args))
  }

  /** The same, read inside a placeholder of which `name` was read. A further dollar sign is dropped. */
  function Placeholder(s: string, name: string, args: Arguments): Option<string> {
    if s == [] then (if name in args then Some(args[name]) else None)
    else if s[0] == '$' then Placeholder(s[1..], name, args)
    else if s[0] == ' ' then
      if name in args then Prepend(args[name] + " ", Plain(s[1..], args)) else None
    else Placeholder(s[1..], name + [s[0]], args)
  }

  function Prepend(front: string, rest: Option<string>): Option<string> {
    match rest
    case None => None
    case Some(text) => Some(front + text)
  }

  /** The text itself when there are no arguments or a name is unknown. */
  function Replaced(what: string, arguments: Option<Arguments>): string {
    if arguments.None? then what
    else
      match Plain(what, arguments.value)
      case None => what
      case Some(text) => text
  }

  function Rest(s: string, arg: string, open: bool, args: Arguments): Option<string> {
    if open then Placeholder(s, arg, args) else Plain(s, args)
  }

  method ReplaceArguments(what: string, arguments: Option<Arguments>) returns (r: string)
    ensures r == Replaced(what, arguments)
  {
    if arguments.None? {
      return what;
    }
    var args := arguments.value;
    var buff, arg, open := "", "", false;
    PrependNothing(Plain(what, args));
    assert what[0..] == what;
    for i := 0 to |what|
      invariant !open ==> arg == ""
      invariant Plain(what, args) == Prepend(buff, Rest(what[i..], arg, open, args))
    {
      ghost var before := buff;
      ghost var rest := what[i..];
      assert rest[0] == what[i] && rest[1..] == what[i + 1..];
      var c := what[i];
      if c == '$' {
        open := true;
      } else if c == ' ' && open {
        open := false;
        if arg !in args {
          return what;
        }
        buff := buff + args[arg];
        buff := buff + " ";
        PrependTwice(before, args[arg] + " ", Plain(what[i + 1..], args));
        assert buff == before + (args[arg] + " ");
        arg := "";
      } else if open {
        arg := arg + [c];
      } else {
        buff := buff + [c];
        PrependTwice(before, [c], Plain(what[i + 1..], args));
      }
    }
    if open {
      if arg !in args {
        return what;
      }
      buff := buff + args[arg];
    }
    r := buff;
  }

  lemma PrependTwice(a: string, b: string, rest: Option<string>)
    ensures Prepend(a, Prepend(b, rest)) == Prepend(a + b, rest)
  {
    if rest.Some? {
      assert a + (b + rest.value) == (a + b) + rest.value;
    }
  }

  lemma PrependNothing(rest: Option<string>)
    ensures Prepend("", rest) == rest
  {
    if rest.Some? {
      assert "" + rest.value == rest.value;
    }
  }

  // ----- templates

  datatype Item = Literal(text: string) | Variable(name: string)

  function Written(x: Item): string {
    match x
    case Literal(text) => text
    case Variable(name) => "$" + name
  }

  function Render(items: seq<Item>): string {
    if items == [] then "" else Written(items[0]) + Render(items[1..])
  }

  /** Literals hold no dollar sign, names neither dollar sign nor space, and every variable is
      followed by a space or by the end. */
  ghost predicate Template(items: seq<Item>) {
    && (forall i :: 0 <= i < |items| && items[i].Literal? ==> '$' !in items[i].text)
    && (forall i :: 0 <= i < |items| && items[i].Variable? ==> '$' !in items[i].name && ' ' !in items[i].name)
    && (forall i :: 0 <= i < |items| - 1 && items[i].Variable? ==>
          items[i + 1].Literal? && items[i + 1].text != [] && items[i + 1].text[0] == ' ')
  }

  ghost predicate Mapped(items: seq<Item>, args: Arguments) {
    forall i :: 0 <= i < |items| && items[i].Variable? ==> items[i].name in args
  }

  function ValueOf(x: Item, args: Arguments): string {
    match x
    case Literal(text) => text
    case Variable(name) => if name in args then args[name] else ""
  }

  /** Every variable replaced by its value; values are not read again. */
  function Filled(items: seq<Item>, args: Arguments): string {
    if items == [] then "" else ValueOf(items[0], args) + Filled(items[1..], args)
  }

  lemma {:induction false} ReadLiteral(text: string, rest: string, args: Arguments)
    requires '$' !in text
    ensures Plain(text + rest, args) == Prepend(text, Plain(rest, args))
  {
    if text == [] {
      assert text + rest == rest;
      PrependNothing(Plain(rest, args));
    } else {
      ReadLiteral(text[1..], rest, args);
      assert (text + rest)[1..] == text[1..] + rest;
      PrependTwice([text[0]], text[1..], Plain(rest, args));
      assert [text[0]] + text[1..] == text;
    }
  }

  lemma {:induction false} ReadName(name: string, read: string, rest: string, args: Arguments)
    requires '$' !in name && ' ' !in name
    ensures Placeholder(name + rest, read, args) == Placeholder(rest, read + name, args)
  {
    if name == [] {
      assert name + rest == rest && read + name == read;
    } else {
      ReadName(name[1..], read + [name[0]], rest, args);
      assert (name + rest)[1..] == name[1..] + rest;
      assert read + [name[0]] + name[1..] == read + name;
    }
  }

  /** The space that ends a name is read as part of the literal that follows. */
  lemma ReadEnd(name: string, rest: string, args: Arguments)
    requires rest == [] || rest[0] == ' '
    ensures Placeholder(rest, name, args) == if name in args then Prepend(args[name], Plain(rest, args)) else None
  {
    if name in args {
      if rest == [] {
        assert args[name] + "" == args[name];
      } else {
        assert Plain(rest, args) == Prepend(" ", Plain(rest[1..], args));
        PrependTwice(args[name], " ", Plain(rest[1..], args));
      }
    }
  }

  lemma TemplateTail(items: seq<Item>)
    requires Template(items) && items != []
    ensures Template(items[1..])
    ensures items[0].Variable? ==> Render(items[1..]) == [] || Render(items[1..])[0] == ' '
  {
    var tail := items[1..];
    forall i | 0 <= i < |tail| - 1 && tail[i].Variable?
      ensures tail[i + 1].Literal? && tail[i + 1].text != [] && tail[i + 1].text[0] == ' '
    {
      assert tail[i] == items[i + 1] && tail[i + 1] == items[i + 2];
    }
    if items[0].Variable? && tail != [] {
      assert tail[0] == items[1];
    }
  }

  lemma MappedTail(items: seq<Item>, args: Arguments)
    requires items != []
    ensures Mapped(items, args) <==> (items[0].Variable? ==> items[0].name in args) && Mapped(items[1..], args)
  {
    var tail := items[1..];
    if Mapped(items, args) {
      forall i | 0 <= i < |tail| && tail[i].Variable? ensures tail[i].name in args {
        assert tail[i] == items[i + 1];
      }
    }
    if (items[0].Variable? ==> items[0].name in args) && Mapped(tail, args) {
      forall i | 0 <= i < |items| && items[i].Variable? ensures items[i].name in args {
        assert i > 0 ==> items[i] == tail[i - 1];
      }
    }
  }

  /** Reading one item off the front. */
  lemma ReadItem(x: Item, rest: string, args: Arguments)
    requires x.Literal? ==> '$' !in x.text
    requires x.Variable? ==> '$' !in x.name && ' ' !in x.name && (rest == [] || rest[0] == ' ')
    ensures Plain(Written(x) + rest, args) ==
            if x.Literal? || x.name in args then Prepend(ValueOf(x, args), Plain(rest, args)) else None
  {
    match x
    case Literal(text) =>
      ReadLiteral(text, rest, args);
    case Variable(name) =>
      assert (Written(x) + rest)[1..] == name + rest;
      ReadName(name, "", rest, args);
      assert "" + name == name;
      ReadEnd(name, rest, args);
  }

  lemma {:induction false} PlainOfTemplate(items: seq<Item>, args: Arguments)
    requires Template(items)
    ensures Plain(Render(items), args) == if Mapped(items, args) then Some(Filled(items, args)) else None
  {
    if items != [] {
      TemplateTail(items);
      PlainOfTemplate(items[1..], args);
      MappedTail(items, args);
      ReadItem(items[0], Render(items[1..]), args);
    }
  }

  /** A template is filled in when all its names are mapped, and otherwise left as it was. */
  lemma TemplateReplaced(items: seq<Item>, args: Arguments)
    requires Template(items)
    ensures Replaced(Render(items), Some(args)) == if Mapped(items, args) then Filled(items, args) else Render(items)
  {
    PlainOfTemplate(items, args);
  }

  /** Without the space between them two variables are read as one, whose name is both names. */
  lemma AdjacentNamesMerge(a: string, b: string, args: Arguments)
    requires '$' !in a && ' ' !in a && '$' !in b && ' ' !in b
    ensures Replaced("$" + a + "$" + b, Some(args)) == if a + b in args then args[a + b] else "$" + a + "$" + b
  {
    var s := "$" + a + "$" + b;
    assert s[1..] == a + ("$" + b);
    ReadName(a, "", "$" + b, args);
    assert "" + a == a;
    assert ("$" + b)[1..] == b + "";
    ReadName(b, a, "", args);
    assert b + "" == b;
  }

  /** A job without arguments keeps its text, whatever variables are in it. */
  lemma NoArguments(what: string)
    ensures Replaced(what, None) == what
  {
  }

  /** Arguments change nothing in a text without a dollar sign. */
  lemma NothingToReplace(what: string, args: Arguments)
    requires '$' !in what
    ensures Replaced(what, Some(args)) == what
  {
    assert what + "" == what;
    ReadLiteral(what, "", args);
  }
}
