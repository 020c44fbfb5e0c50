/** The error line of the forms built from a Laravel-style validation body
    (app/register/page.tsx and app/tasks/new/page.tsx):
    `Object.values(errors).flat().join(' ')`, the `message` fallback and a
    fixed default. */
module Messages {
  import opened Wrappers
  import opened Browser
  import opened Types

  /** `Object.values(errors).flat()`: every field's messages, field by field. */
  function Flatten(fields: seq<(string, seq<string>)>): (r: seq<string>)
    ensures forall i, m :: 0 <= i < |fields| && m in fields[i].1 ==> m in r
    ensures forall m :: m in r ==> exists i :: 0 <= i < |fields| && m in fields[i].1
  {
    if |fields| == 0 then [] else fields[0].1 + Flatten(fields[1..])
  }

  /** `.join(' ')`: the messages separated by single spaces. */
  function Join(ms: seq<string>): (r: string)
    ensures |ms| == 0 ==> r == ""
    ensures |ms| == 1 ==> r == ms[0]
  {
    if |ms| == 0 then "" else if |ms| == 1 then ms[0] else ms[0] + " " + Join(ms[1..])
  }

  /** Splitting a string at every space (the inverse of `Join` on messages
      without spaces). */
  function SplitOnSpace(s: string): (r: seq<string>)
    ensures |r| > 0
  {
    if |s| == 0 then [""]
    else
      var rest := SplitOnSpace(s[1..]);
      if s[0] == ' ' then [""] + rest else [[s[0]] + rest[0]] + rest[1..]
  }

  /** Flattening distributes over the fields. */
  lemma {:induction false} FlattenAppend(a: seq<(string, seq<string>)>, b: seq<(string, seq<string>)>)
    ensures Flatten(a + b) == Flatten(a) + Flatten(b)
  {
    if |a| == 0 {
      assert a + b == b;
    } else {
      assert (a + b)[0] == a[0];
      assert (a + b)[1..] == a[1..] + b;
      FlattenAppend(a[1..], b);
    }
  }

  /** Fields whose message lists are all empty flatten to nothing. */
  lemma {:induction false} FlattenEmptyLists(fields: seq<(string, seq<string>)>)
    requires forall i :: 0 <= i < |fields| ==> fields[i].1 == []
    ensures Flatten(fields) == []
  {
    if |fields| > 0 {
      FlattenEmptyLists(fields[1..]);
    }
  }

  /** Joining two non-empty lists puts one space between their joins. */
  lemma {:induction false} JoinAppend(a: seq<string>, b: seq<string>)
    requires |a| > 0 && |b| > 0
    ensures Join(a + b) == Join(a) + " " + Join(b)
  {
    assert (a + b)[0] == a[0];
    assert (a + b)[1..] == a[1..] + b;
    if |a| > 1 {
      JoinAppend(a[1..], b);
    }
  }

  /** A word without spaces splits to itself. */
  lemma {:induction false} SplitWord(w: string)
    requires ' ' !in w
    ensures SplitOnSpace(w) == [w]
  {
    if |w| > 0 {
      SplitWord(w[1..]);
      assert [w[0]] + w[1..] == w;
    }
  }

  /** A word followed by a space splits off as the first piece. */
  lemma {:induction false} SplitAfterWord(w: string, s: string)
    requires ' ' !in w
    ensures SplitOnSpace(w + " " + s) == [w] + SplitOnSpace(s)
  {
    var t := w + " " + s;
    if |w| == 0 {
      assert t[0] == ' ' && t[1..] == s;
    } else {
      assert t[0] == w[0];
      assert t[1..] == w[1..] + " " + s;
      SplitAfterWord(w[1..], s);
      assert [w[0]] + w[1..] == w;
    }
  }

  /** Joining loses nothing when no message holds a space: splitting the
      joined line gives the messages back. */
  lemma {:induction false} SplitJoin(ms: seq<string>)
    requires |ms| > 0
    requires forall i :: 0 <= i < |ms| ==> ' ' !in ms[i]
    ensures SplitOnSpace(Join(ms)) == ms
  {
    if |ms| == 1 {
      SplitWord(ms[0]);
    } else {
      SplitJoin(ms[1..]);
      SplitAfterWord(ms[0], Join(ms[1..]));
      assert [ms[0]] + ms[1..] == ms;
    }
  }

  /** The catch block shared by the two forms: the validation messages behind
      `prefix` when `errors` is present, else a truthy `message` verbatim,
      else `default` (also when there is no response or no body). */
  function ValidationMessage(failure: ApiFailure, prefix: string, default: string): (m: string)
    ensures failure.response.None? || failure.response.value.data.None? ==> m == default
    ensures failure.response.Some? && failure.response.value.data.Some? ==>
              var data := failure.response.value.data.value;
              && (data.errors.Some? ==> |m| >= |prefix| && m[..|prefix|] == prefix)
              && (data.errors.None? ==> m == default || (data.message == Some(m) && m != ""))
  {
    if failure.response.Some? && failure.response.value.data.Some? then
      var data := failure.response.value.data.value;
      if data.errors.Some? then prefix + Join(Flatten(data.errors.value))
      else if Truthy(data.message) then data.message.value
      else default
    else default
  }

  /** A validation body with the given parts, attached to a response. */
  function WithBody(status: int, message: Option<string>, errors: Option<seq<(string, seq<string>)>>): ApiFailure {
    ApiFailure(Some(ErrorResponse(status, Some(ValidationData(message, errors)))))
  }

  /** `errors` wins over `message`; a truthy `message` is used verbatim when
      `errors` is absent; otherwise, and without a response or a body, the
      default is used. */
  lemma ValidationMessageCases(status: int, message: Option<string>, fields: seq<(string, seq<string>)>,
                               prefix: string, default: string)
    ensures ValidationMessage(WithBody(status, message, Some(fields)), prefix, default)
              == prefix + Join(Flatten(fields))
    ensures Truthy(message) ==>
              ValidationMessage(WithBody(status, message, None), prefix, default) == message.value
    ensures !Truthy(message) ==>
              ValidationMessage(WithBody(status, message, None), prefix, default) == default
    ensures ValidationMessage(ApiFailure(None), prefix, default) == default
    ensures ValidationMessage(ApiFailure(Some(ErrorResponse(status, None))), prefix, default) == default
  {
  }

  /** Messages of consecutive fields are joined with one space, in field order
      and then list order. */
  lemma ValidationMessageConcatenates(status: int, message: Option<string>,
                                      a: seq<(string, seq<string>)>, b: seq<(string, seq<string>)>,
                                      prefix: string, default: string)
    requires |Flatten(a)| > 0 && |Flatten(b)| > 0
    ensures ValidationMessage(WithBody(status, message, Some(a + b)), prefix, default)
              == ValidationMessage(WithBody(status, message, Some(a)), prefix, default)
                 + " " + Join(Flatten(b))
  {
    FlattenAppend(a, b);
    JoinAppend(Flatten(a), Flatten(b));
  }

  /** An `errors` object with no messages yields just the prefix. */
  lemma EmptyErrorsYieldPrefix(status: int, message: Option<string>, fields: seq<(string, seq<string>)>,
                               prefix: string, default: string)
    requires forall i :: 0 <= i < |fields| ==> fields[i].1 == []
    ensures ValidationMessage(WithBody(status, message, Some(fields)), prefix, default) == prefix
  {
    FlattenEmptyLists(fields);
  }
}
