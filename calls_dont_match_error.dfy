/** The message of `CallsDontMatchError`, raised when a mocked method was not
    called with the expected arguments. The arguments and the other recorded
    interactions arrive as already-rendered strings. */
module CallsDontMatchError {
  import opened PropertyKeys

  /** `Array.prototype.join` over strings: the parts with `sep` between each
      neighbouring pair. */
  function Join(parts: seq<string>, sep: string): (r: string)
    ensures |parts| == 0 ==> r == ""
    ensures |parts| > 0 ==> parts[0] <= r
    ensures |parts| > 0 ==> |r| == TotalLength(parts) + (|parts| - 1) * |sep|
    decreases |parts|
  {
    if |parts| == 0 then ""
    else if |parts| == 1 then parts[0]
    else parts[0] + sep + Join(parts[1..], sep)
  }

  /** The number of characters in all the parts together. */
  function TotalLength(parts: seq<string>): nat
    decreases |parts|
  {
    if |parts| == 0 then 0 else |parts[0]| + TotalLength(parts[1..])
  }

  /** `String.prototype.split` on a single character: the maximal runs between
      occurrences of `c`. Splitting the empty string yields `[""]`. */
  function Split(s: string, c: char): (lines: seq<string>)
    ensures |lines| >= 1
    ensures forall i :: 0 <= i < |lines| ==> c !in lines[i]
    decreases |s|
  {
    if |s| == 0 then [""]
    else if s[0] == c then [""] + Split(s[1..], c)
    else
      var rest := Split(s[1..], c);
      [[s[0]] + rest[0]] + rest[1..]
  }

  const Separator := ", "
  const FirstLineInfix := " was not called with: ["
  /** The second line of the template literal starts with seven spaces. */
  const SecondLineHead := "       Other interactions with this mock: ["

  /** The template literal, once `methodName` has been turned into text. */
  function MessageText(expectedCall: seq<string>, otherInteractions: seq<string>, methodName: string): string
  {
    methodName + FirstLineInfix + Join(expectedCall, Separator) + "]\n"
    + SecondLineHead + Join(otherInteractions, Separator) + "]"
  }

  /** Constructing the error. A symbol interpolated into a template literal
      makes it throw a `TypeError`, which is `TemplateTypeError` here. */
  datatype Constructed = Message(text: string) | TemplateTypeError

  function NewCallsDontMatchError(expectedCall: seq<string>, otherInteractions: seq<string>, methodName: PropertyKey): (r: Constructed)
    ensures r.TemplateTypeError? <==> methodName.IsSymbol()
    ensures r.Message? ==> r.text == MessageText(expectedCall, otherInteractions, methodName.name)
  {
    match methodName
    case StringKey(name) => Message(MessageText(expectedCall, otherInteractions, name))
    case _ => TemplateTypeError
  }

  // ---------------------------------------------------------------- Join

  /** Join grows at the right end: a part appended to a non-empty sequence
      lands after one more separator. */
  lemma {:induction false} JoinSnoc(parts: seq<string>, sep: string, x: string)
    ensures Join([], sep) == ""
    ensures Join([x], sep) == x
    ensures |parts| > 0 ==> Join(parts + [x], sep) == Join(parts, sep) + sep + x
    decreases |parts|
  {
    if |parts| > 1 {
      calc {
        Join(parts + [x], sep);
        { assert (parts + [x])[1..] == parts[1..] + [x]; }
        parts[0] + sep + Join(parts[1..] + [x], sep);
        { JoinSnoc(parts[1..], sep, x); }
        parts[0] + sep + (Join(parts[1..], sep) + sep + x);
      }
    } else if |parts| == 1 {
      assert parts + [x] == [parts[0], x];
    }
  }

  /** Join distributes over concatenation of two non-empty sequences. */
  lemma {:induction false} JoinConcat(a: seq<string>, b: seq<string>, sep: string)
    requires |a| > 0 && |b| > 0
    ensures Join(a + b, sep) == Join(a, sep) + sep + Join(b, sep)
    decreases |a|
  {
    if |a| == 1 {
      assert (a + b)[1..] == b;
    } else {
      assert (a + b)[1..] == a[1..] + b;
      JoinConcat(a[1..], b, sep);
    }
  }

  /** A character absent from every part and from the separator is absent
      from the joined text. */
  lemma {:induction false} JoinAvoids(parts: seq<string>, sep: string, c: char)
    requires c !in sep
    requires forall i :: 0 <= i < |parts| ==> c !in parts[i]
    ensures c !in Join(parts, sep)
    decreases |parts|
  {
    if |parts| > 1 {
      JoinAvoids(parts[1..], sep, c);
    }
  }

  // --------------------------------------------------------------- Split

  /** Text that avoids `c` is a single piece. */
  lemma {:induction false} SplitAvoiding(s: string, c: char)
    requires c !in s
    ensures Split(s, c) == [s]
    decreases |s|
  {
    if |s| > 0 {
      SplitAvoiding(s[1..], c);
      assert [s[0]] + s[1..] == s;
    }
  }

  /** Splitting at the first occurrence of `c`. */
  lemma {:induction false} SplitAtFirst(a: string, b: string, c: char)
    requires c !in a
    ensures Split(a + [c] + b, c) == [a] + Split(b, c)
    decreases |a|
  {
    if |a| == 0 {
      assert a + [c] + b == [c] + b;
      assert ([c] + b)[1..] == b;
    } else {
      var s := a + [c] + b;
      assert s[0] == a[0];
      assert s[1..] == a[1..] + [c] + b;
      SplitAtFirst(a[1..], b, c);
      assert [a[0]] + a[1..] == a;
    }
  }

  /** Split undoes Join on a one-character separator, for parts that avoid it. */
  lemma {:induction false} SplitJoin(parts: seq<string>, c: char)
    requires |parts| > 0
    requires forall i :: 0 <= i < |parts| ==> c !in parts[i]
    ensures Split(Join(parts, [c]), c) == parts
    decreases |parts|
  {
    if |parts| == 1 {
      SplitAvoiding(parts[0], c);
    } else {
      SplitJoin(parts[1..], c);
      SplitAtFirst(parts[0], Join(parts[1..], [c]), c);
      assert [parts[0]] + parts[1..] == parts;
    }
  }

  /** Join undoes Split: rejoining the pieces with `c` gives the text back. */
  lemma {:induction false} JoinSplit(s: string, c: char)
    ensures Join(Split(s, c), [c]) == s
    decreases |s|
  {
    if |s| > 0 {
      var rest := Split(s[1..], c);
      JoinSplit(s[1..], c);
      if s[0] == c {
        JoinConcat([""], rest, [c]);
        assert [c] + s[1..] == s;
      } else if |rest| == 1 {
        assert [s[0]] + s[1..] == s;
      } else {
        JoinConcat([rest[0]], rest[1..], [c]);
        assert [rest[0]] + rest[1..] == rest;
        JoinConcat([[s[0]] + rest[0]], rest[1..], [c]);
        assert [s[0]] + s[1..] == s;
      }
    }
  }

  // ------------------------------------------------------------- Message

  /** The message opens with the method name and `" was not called with: ["`. */
  lemma MessageStartsWithName(expectedCall: seq<string>, otherInteractions: seq<string>, methodName: string)
    ensures methodName + FirstLineInfix <= MessageText(expectedCall, otherInteractions, methodName)
  {
    var m := MessageText(expectedCall, otherInteractions, methodName);
    var p := methodName + FirstLineInfix;
    assert m == p + (Join(expectedCall, Separator) + "]\n" + SecondLineHead + Join(otherInteractions, Separator) + "]");
  }

  /** The message always ends with the `]` that closes the other interactions. */
  lemma MessageEndsWithBracket(expectedCall: seq<string>, otherInteractions: seq<string>, methodName: string)
    ensures var m := MessageText(expectedCall, otherInteractions, methodName);
      |m| > 0 && m[|m| - 1] == ']'
  {
  }

  /** With no other interactions the second line is still there and reads
      `...mock: []`. */
  lemma EmptyHistoryLineKept(expectedCall: seq<string>, methodName: string)
    ensures var m := MessageText(expectedCall, [], methodName);
      var tail := "\n" + SecondLineHead + "]";
      |tail| <= |m| && m[|m| - |tail|..] == tail
  {
    var m := MessageText(expectedCall, [], methodName);
    var tail := "\n" + SecondLineHead + "]";
    assert m == (methodName + FirstLineInfix + Join(expectedCall, Separator) + "]") + tail;
  }

  /** When neither the method name nor any rendered element holds a line
      break, the message has exactly one, and cutting it there gives the two
      lines of the template. */
  lemma {:induction false} MessageLines(expectedCall: seq<string>, otherInteractions: seq<string>, methodName: string)
    requires '\n' !in methodName
    requires forall i :: 0 <= i < |expectedCall| ==> '\n' !in expectedCall[i]
    requires forall i :: 0 <= i < |otherInteractions| ==> '\n' !in otherInteractions[i]
    ensures var m := MessageText(expectedCall, otherInteractions, methodName);
      multiset(m)['\n'] == 1 &&
      Split(m, '\n') == [methodName + FirstLineInfix + Join(expectedCall, Separator) + "]",
                         SecondLineHead + Join(otherInteractions, Separator) + "]"]
  {
    var je := Join(expectedCall, Separator);
    var jo := Join(otherInteractions, Separator);
    JoinAvoids(expectedCall, Separator, '\n');
    JoinAvoids(otherInteractions, Separator, '\n');
    var first := methodName + FirstLineInfix + je + "]";
    var second := SecondLineHead + jo + "]";
    assert MessageText(expectedCall, otherInteractions, methodName) == first + ['\n'] + second;
    assert '\n' !in first;
    assert '\n' !in second;
    TwoLines(first, second);
  }

  /** Two line-break-free lines joined by one line break split back apart. */
  lemma TwoLines(first: string, second: string)
    requires '\n' !in first && '\n' !in second
    ensures multiset(first + ['\n'] + second)['\n'] == 1
    ensures Split(first + ['\n'] + second, '\n') == [first, second]
  {
    SplitAtFirst(first, second, '\n');
    SplitAvoiding(second, '\n');
    assert multiset(first + ['\n'] + second) == multiset(first) + multiset{'\n'} + multiset(second);
  }
}
