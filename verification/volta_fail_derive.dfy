/** The `#[derive(VoltaFail)]` procedural macro, reduced to what it decides: it reads the
    `#[volta_fail(...)]` attributes of a type, accepts only `code = "<string>"` entries,
    and emits an `exit_code` that returns the `ExitCode` variant named by the last one.
    Token parsing and generation are not modelled: attributes arrive already parsed,
    and every panic of the macro is an `Err` naming its message. */
module VoltaFailDerive {
  import opened Fallible

  /** A literal, `syn::Lit`; only string literals carry a value the macro reads. */
  datatype Lit = Str(value: string) | ByteStr | Byte | Char | Int | Float | Bool | Verbatim

  /** `syn::Meta`: a bare word, a parenthesised list, or `name = literal`. */
  datatype Meta =
    | Word(ident: string)
    | List(ident: string, nested: seq<NestedMeta>)
    | NameValue(ident: string, lit: Lit)

  /** `syn::NestedMeta`: one entry of a list. */
  datatype NestedMeta = MetaItem(meta: Meta) | Literal(lit: Lit)

  /** `syn::Attribute`: its path segments, and what `interpret_meta` makes of it
      (`None` when its tokens are not a meta item). */
  datatype Attribute = Attribute(path: seq<string>, interpreted: Option<Meta>)

  /** The panics of the macro, one per message. */
  datatype DeriveError =
    | NotListOfAttributes       // "must be a list of attributes"
    | LiteralItem               // "must be name/value pairs, not a literal"
    | ListItem                  // "must be name/value pairs, not a list"
    | CodeNotString             // "'code' must be a string."
    | UnrecognizedName(name: string)  // "not a recognized name: '<name>'"
    | IdentifierItem            // "must be name/value pairs, not an identifier"
    | NoExitCode                // "must set an exit code"

  /** The generated `impl VoltaFail for <forType>`, whose `exit_code` returns
      `ExitCode::<exitCode>`. */
  datatype VoltaFailImpl = VoltaFailImpl(forType: string, exitCode: string)

  /** The attribute is written `#[volta_fail ...]`: one path segment, `volta_fail`. */
  predicate IsVoltaFailPath(path: seq<string>) {
    |path| == 1 && path[0] == "volta_fail"
  }

  /** The attribute is in list form, `#[name(...)]`. */
  predicate IsListForm(attr: Attribute) {
    attr.interpreted.Some? && attr.interpreted.value.List?
  }

  /** The item is `code = "<string>"`. */
  predicate IsCodeItem(item: NestedMeta) {
    item.MetaItem? && item.meta.NameValue? && item.meta.ident == "code" && item.meta.lit.Str?
  }

  /** `get_volta_fail_meta_items`: the items of a `volta_fail` attribute, nothing for any
      other attribute, and a rejection for a `volta_fail` attribute that is not a list. */
  function MetaItems(attr: Attribute): (r: Result<Option<seq<NestedMeta>>, DeriveError>)
    ensures !IsVoltaFailPath(attr.path) <==> r == Ok(None)
    ensures r.Err? <==> IsVoltaFailPath(attr.path) && !IsListForm(attr)
    ensures r.Err? ==> r.error == NotListOfAttributes
    ensures r.Ok? && r.value.Some? ==> IsListForm(attr) && r.value.value == attr.interpreted.value.nested
  {
    if IsVoltaFailPath(attr.path) then
      match attr.interpreted
      case Some(List(_, nested)) => Ok(Some(nested))
      case _ => Err(NotListOfAttributes)
    else
      Ok(None)
  }

  /** One arm of the match on an item: the code string a `code = "<string>"` item sets,
      or the rejection of any other item. */
  function CheckItem(item: NestedMeta): (r: Result<string, DeriveError>)
    ensures r.Ok? <==> IsCodeItem(item)
    ensures r.Ok? ==> item == MetaItem(NameValue("code", Str(r.value)))
    ensures item.Literal? ==> r == Err(LiteralItem)
    ensures item.MetaItem? && item.meta.List? ==> r == Err(ListItem)
    ensures item.MetaItem? && item.meta.Word? ==> r == Err(IdentifierItem)
    ensures item.MetaItem? && item.meta.NameValue? && item.meta.ident == "code" && !item.meta.lit.Str?
            ==> r == Err(CodeNotString)
    ensures item.MetaItem? && item.meta.NameValue? && item.meta.ident != "code"
            ==> r == Err(UnrecognizedName(item.meta.ident))
  {
    match item
    case Literal(_) => Err(LiteralItem)
    case MetaItem(List(_, _)) => Err(ListItem)
    case MetaItem(NameValue(ident, lit)) =>
      if ident == "code" then
        if lit.Str? then Ok(lit.value) else Err(CodeNotString)
      else
        Err(UnrecognizedName(ident))
    case MetaItem(Word(_)) => Err(IdentifierItem)
  }

  // ---------------------------------------------------------------------------------
  // Reference definition: what the macro decides, stated over the stream of things its
  // loops look at, in order.
  // ---------------------------------------------------------------------------------

  /** One thing the loops look at: an item of a `volta_fail` list, or a `volta_fail`
      attribute that is not a list. */
  datatype Step = Visit(item: NestedMeta) | Malformed

  /** What the macro makes of one step. */
  function StepOutcome(step: Step): Result<string, DeriveError> {
    match step
    case Visit(item) => CheckItem(item)
    case Malformed => Err(NotListOfAttributes)
  }

  /** The steps of the first `n` items of a list. */
  function ItemSteps(items: seq<NestedMeta>, n: nat): (steps: seq<Step>)
    requires n <= |items|
    ensures |steps| == n
  {
    if n == 0 then [] else ItemSteps(items, n - 1) + [Visit(items[n - 1])]
  }

  /** The steps one attribute contributes. */
  function AttributeSteps(attr: Attribute): seq<Step> {
    match MetaItems(attr)
    case Err(_) => [Malformed]
    case Ok(None) => []
    case Ok(Some(items)) => ItemSteps(items, |items|)
  }

  /** The steps of the first `n` attributes, in order. */
  function AttrSteps(attrs: seq<Attribute>, n: nat): seq<Step>
    requires n <= |attrs|
  {
    if n == 0 then [] else AttrSteps(attrs, n - 1) + AttributeSteps(attrs[n - 1])
  }

  /** The steps of all attributes, in order. */
  function Steps(attrs: seq<Attribute>): seq<Step> {
    AttrSteps(attrs, |attrs|)
  }

  /** The rejection of the first step that is rejected, if any. */
  function FirstError(steps: seq<Step>): (e: Option<DeriveError>)
    ensures e != Some(NoExitCode)
    decreases |steps|
  {
    if |steps| == 0 then None
    else
      match StepOutcome(steps[0])
      case Err(e) => Some(e)
      case Ok(_) => FirstError(steps[1..])
  }

  /** The code set by the last accepted step, if any. */
  function LastCode(steps: seq<Step>): Option<string>
    decreases |steps|
  {
    if |steps| == 0 then None
    else
      match StepOutcome(steps[|steps| - 1])
      case Ok(code) => Some(code)
      case Err(_) => LastCode(steps[..|steps| - 1])
  }

  /** The derive: the first rejection, if there is one; otherwise the impl for the last
      code set, if there is one; otherwise the missing-exit-code rejection. */
  function Derive(name: string, attrs: seq<Attribute>): Result<VoltaFailImpl, DeriveError> {
    var steps := Steps(attrs);
    match FirstError(steps)
    case Some(e) => Err(e)
    case None =>
      match LastCode(steps)
      case None => Err(NoExitCode)
      case Some(code) => Ok(VoltaFailImpl(name, code))
  }

  // ---------------------------------------------------------------------------------
  // The macro's loops.
  // ---------------------------------------------------------------------------------

  /** The macro's two mutable variables: the code name so far (initially
      `UnknownError`) and whether a `code` item has set it. */
  datatype LoopState = LoopState(code: string, codeSet: bool)

  /** `state` is where the loops stand after looking at `steps`: nothing was rejected, and
      the code is set exactly when some step set it, to the value the last one set. */
  predicate Summarises(state: LoopState, steps: seq<Step>) {
    && FirstError(steps) == None
    && (state.codeSet <==> LastCode(steps).Some?)
    && (state.codeSet ==> state.code == LastCode(steps).value)
  }

  /** The inner loop of `volta_fail`: look at the items of one attribute in order and
      stop at the first rejected one. */
  method ScanItems(state: LoopState, seen: seq<Step>, items: seq<NestedMeta>) returns (r: Result<LoopState, DeriveError>)
    requires Summarises(state, seen)
    ensures r.Ok? ==> Summarises(r.value, seen + ItemSteps(items, |items|))
    ensures r.Err? ==> FirstError(seen + ItemSteps(items, |items|)) == Some(r.error)
  {
    var code, codeSet := state.code, state.codeSet;
    var j := 0;
    assert seen + ItemSteps(items, 0) == seen;
    while j < |items|
      invariant 0 <= j <= |items|
      invariant Summarises(LoopState(code, codeSet), seen + ItemSteps(items, j))
    {
      var now := seen + ItemSteps(items, j);
      assert seen + ItemSteps(items, j + 1) == now + [Visit(items[j])];
      match CheckItem(items[j]) {
        case Err(e) =>
          RejectedStep(now, Visit(items[j]));
          ItemStepsGrow(items, j + 1, |items|);
          assert seen + ItemSteps(items, j + 1) <= seen + ItemSteps(items, |items|);
          FirstErrorSticky(seen + ItemSteps(items, j + 1), seen + ItemSteps(items, |items|));
          return Err(e);
        case Ok(c) =>
          AcceptedStep(now, Visit(items[j]));
          code := c;
          codeSet := true;
      }
      j := j + 1;
    }
    return Ok(LoopState(code, codeSet));
  }

  /** `volta_fail`: walk the items of every `volta_fail` attribute in order, stop at the
      first rejected one, remember the last code set, and insist that one was set. */
  method VoltaFail(name: string, attrs: seq<Attribute>) returns (r: Result<VoltaFailImpl, DeriveError>)
    ensures r == Derive(name, attrs)
  {
    var state := LoopState("UnknownError", false);
    var i := 0;
    while i < |attrs|
      invariant 0 <= i <= |attrs|
      invariant Summarises(state, AttrSteps(attrs, i))
    {
      var done := AttrSteps(attrs, i);
      match MetaItems(attrs[i]) {
        case Err(e) =>
          assert AttrSteps(attrs, i + 1) == done + [Malformed];
          RejectedStep(done, Malformed);
          AttrStepsGrow(attrs, i + 1, |attrs|);
          FirstErrorSticky(AttrSteps(attrs, i + 1), Steps(attrs));
          return Err(e);
        case Ok(None) =>
          assert AttrSteps(attrs, i + 1) == done + [] == done;
        case Ok(Some(items)) =>
          assert AttrSteps(attrs, i + 1) == done + ItemSteps(items, |items|);
          var scanned := ScanItems(state, done, items);
          if scanned.Err? {
            AttrStepsGrow(attrs, i + 1, |attrs|);
            FirstErrorSticky(AttrSteps(attrs, i + 1), Steps(attrs));
            return Err(scanned.error);
          }
          state := scanned.value;
      }
      i := i + 1;
    }
    if !state.codeSet {
      return Err(NoExitCode);
    }
    return Ok(VoltaFailImpl(name, state.code));
  }

  // ---------------------------------------------------------------------------------
  // Lemmas about the step stream.
  // ---------------------------------------------------------------------------------

  /** The steps of fewer items are a prefix of the steps of more. */
  lemma {:induction false} ItemStepsGrow(items: seq<NestedMeta>, n: nat, m: nat)
    requires n <= m <= |items|
    ensures ItemSteps(items, n) <= ItemSteps(items, m)
    decreases m - n
  {
    if n < m {
      ItemStepsGrow(items, n, m - 1);
      assert ItemSteps(items, m) == ItemSteps(items, m - 1) + [Visit(items[m - 1])];
    }
  }

  /** The steps of fewer attributes are a prefix of the steps of more. */
  lemma {:induction false} AttrStepsGrow(attrs: seq<Attribute>, n: nat, m: nat)
    requires n <= m <= |attrs|
    ensures AttrSteps(attrs, n) <= AttrSteps(attrs, m)
    decreases m - n
  {
    if n < m {
      AttrStepsGrow(attrs, n, m - 1);
      assert AttrSteps(attrs, m) == AttrSteps(attrs, m - 1) + AttributeSteps(attrs[m - 1]);
    }
  }

  /** The steps of the first `n` attributes depend only on those attributes. */
  lemma {:induction false} AttrStepsAgree(attrs: seq<Attribute>, attrs': seq<Attribute>, n: nat)
    requires n <= |attrs| && n <= |attrs'|
    requires forall k :: 0 <= k < n ==> attrs[k] == attrs'[k]
    ensures AttrSteps(attrs, n) == AttrSteps(attrs', n)
  {
    if n > 0 {
      AttrStepsAgree(attrs, attrs', n - 1);
    }
  }

  /** The steps of the first `|a| + n` attributes of `a + b`. */
  lemma {:induction false} AttrStepsAppend(a: seq<Attribute>, b: seq<Attribute>, n: nat)
    requires n <= |b|
    ensures AttrSteps(a + b, |a| + n) == Steps(a) + AttrSteps(b, n)
  {
    if n == 0 {
      AttrStepsAgree(a + b, a, |a|);
    } else {
      AttrStepsAppend(a, b, n - 1);
      assert (a + b)[|a| + n - 1] == b[n - 1];
      assert AttrSteps(a + b, |a| + n) == AttrSteps(a + b, |a| + n - 1) + AttributeSteps(b[n - 1]);
      assert AttrSteps(b, n) == AttrSteps(b, n - 1) + AttributeSteps(b[n - 1]);
    }
  }

  /** The steps of two runs of attributes are the steps of each, in order. */
  lemma StepsAppend(a: seq<Attribute>, b: seq<Attribute>)
    ensures Steps(a + b) == Steps(a) + Steps(b)
  {
    AttrStepsAppend(a, b, |b|);
  }

  /** The steps of a single attribute. */
  lemma StepsOne(attr: Attribute)
    ensures Steps([attr]) == AttributeSteps(attr)
  {
    assert AttrSteps([attr], 1) == AttrSteps([attr], 0) + AttributeSteps(attr);
  }

  /** The first rejection of a stream is in its first part, or else in its second part. */
  lemma {:induction false} FirstErrorAppend(a: seq<Step>, b: seq<Step>)
    ensures FirstError(a + b) == if FirstError(a).Some? then FirstError(a) else FirstError(b)
    decreases |a|
  {
    if |a| == 0 {
      assert a + b == b;
    } else {
      assert (a + b)[0] == a[0];
      assert (a + b)[1..] == a[1..] + b;
      FirstErrorAppend(a[1..], b);
    }
  }

  /** Once a prefix of the stream is rejected, longer streams report the same rejection. */
  lemma FirstErrorSticky(p: seq<Step>, q: seq<Step>)
    requires p <= q && FirstError(p).Some?
    ensures FirstError(q) == FirstError(p)
  {
  }

  /** A rejected step after a clean prefix is the first rejection. */
  lemma RejectedStep(seen: seq<Step>, step: Step)
    requires FirstError(seen) == None && StepOutcome(step).Err?
    ensures FirstError(seen + [step]) == Some(StepOutcome(step).error)
  {
    FirstErrorAppend(seen, [step]);
  }

  /** An accepted step after a clean prefix keeps the prefix clean and sets the code. */
  lemma AcceptedStep(seen: seq<Step>, step: Step)
    requires FirstError(seen) == None && StepOutcome(step).Ok?
    ensures FirstError(seen + [step]) == None
    ensures LastCode(seen + [step]) == Some(StepOutcome(step).value)
  {
    FirstErrorAppend(seen, [step]);
    assert [step][1..] == [];
  }

  /** The stream has no rejection exactly when every step in it is accepted. */
  lemma {:induction false} FirstErrorNone(steps: seq<Step>)
    ensures FirstError(steps) == None <==> forall k :: 0 <= k < |steps| ==> StepOutcome(steps[k]).Ok?
    decreases |steps|
  {
    if |steps| > 0 {
      FirstErrorNone(steps[1..]);
      assert forall k :: 1 <= k < |steps| ==> steps[k] == steps[1..][k - 1];
    }
  }

  /** The rejection reported is that of a rejected step with only accepted steps before it. */
  lemma {:induction false} FirstErrorIsFirst(steps: seq<Step>, k: int)
    requires 0 <= k < |steps| && StepOutcome(steps[k]).Err?
    requires forall k' :: 0 <= k' < k ==> StepOutcome(steps[k']).Ok?
    ensures FirstError(steps) == Some(StepOutcome(steps[k]).error)
    decreases k
  {
    if k > 0 {
      assert StepOutcome(steps[0]).Ok?;
      assert forall k' :: 0 <= k' < k - 1 ==> steps[1..][k'] == steps[k' + 1];
      FirstErrorIsFirst(steps[1..], k - 1);
    }
  }

  /** The code reported is the one set by an accepted step with no accepted step after it. */
  lemma {:induction false} LastCodeIsLast(steps: seq<Step>)
    ensures LastCode(steps).None? <==> forall k :: 0 <= k < |steps| ==> StepOutcome(steps[k]).Err?
    ensures LastCode(steps).Some? ==>
              exists k :: 0 <= k < |steps| && StepOutcome(steps[k]) == Ok(LastCode(steps).value)
                          && forall k' :: k < k' < |steps| ==> StepOutcome(steps[k']).Err?
    decreases |steps|
  {
    if |steps| > 0 {
      var init := steps[..|steps| - 1];
      LastCodeIsLast(init);
      assert forall k :: 0 <= k < |init| ==> init[k] == steps[k];
      if StepOutcome(steps[|steps| - 1]).Err? && LastCode(steps).Some? {
        var k :| 0 <= k < |init| && StepOutcome(init[k]) == Ok(LastCode(init).value)
                 && forall k' :: k < k' < |init| ==> StepOutcome(init[k']).Err?;
        assert StepOutcome(steps[k]) == Ok(LastCode(steps).value);
      }
    }
  }

  /** The step sets a code: it is a `code = "<string>"` item. */
  predicate IsCodeStep(step: Step) {
    step.Visit? && IsCodeItem(step.item)
  }

  /** The derive succeeds exactly when the `volta_fail` attributes hold at least one item,
      every one of them a `code = "<string>"` item, and every `volta_fail` attribute is a
      list. With no code set it fails, so the initial `UnknownError` is never emitted. */
  lemma DeriveAccepts(name: string, attrs: seq<Attribute>)
    ensures Derive(name, attrs).Ok? <==>
              |Steps(attrs)| > 0 && forall k :: 0 <= k < |Steps(attrs)| ==> IsCodeStep(Steps(attrs)[k])
  {
    var steps := Steps(attrs);
    FirstErrorNone(steps);
    LastCodeIsLast(steps);
    if |steps| > 0 {
      assert StepOutcome(steps[0]).Ok? <==> IsCodeStep(steps[0]);
    }
  }

  /** Last write wins: a successful derive is for the type it was applied to, and its
      `exit_code` returns the variant named by the last `code` item, which is the last
      item of all. */
  lemma DeriveEmitsLastCode(name: string, attrs: seq<Attribute>)
    requires Derive(name, attrs).Ok?
    ensures var impl, steps := Derive(name, attrs).value, Steps(attrs);
      && impl.forType == name
      && |steps| > 0
      && steps[|steps| - 1] == Visit(MetaItem(NameValue("code", Str(impl.exitCode))))
  {
    var steps := Steps(attrs);
    FirstErrorNone(steps);
    LastCodeIsLast(steps);
    var k :| 0 <= k < |steps| && StepOutcome(steps[k]) == Ok(LastCode(steps).value)
             && forall k' :: k < k' < |steps| ==> StepOutcome(steps[k']).Err?;
    assert k == |steps| - 1;
  }

  /** The derive fails with the rejection of the first rejected step. */
  lemma DeriveRejectsFirstError(name: string, attrs: seq<Attribute>, k: int)
    requires 0 <= k < |Steps(attrs)| && StepOutcome(Steps(attrs)[k]).Err?
    requires forall k' :: 0 <= k' < k ==> StepOutcome(Steps(attrs)[k']).Ok?
    ensures Derive(name, attrs) == Err(StepOutcome(Steps(attrs)[k]).error)
  {
    FirstErrorIsFirst(Steps(attrs), k);
  }

  /** A rejected item or malformed attribute anywhere, even after a valid `code`, makes
      the derive fail, and never with the missing-exit-code rejection. */
  lemma DeriveRejectsAnyError(name: string, attrs: seq<Attribute>, k: int)
    requires 0 <= k < |Steps(attrs)| && StepOutcome(Steps(attrs)[k]).Err?
    ensures Derive(name, attrs).Err? && Derive(name, attrs).error != NoExitCode
  {
    FirstErrorNone(Steps(attrs));
  }

  /** An attribute other than `#[volta_fail ...]` changes nothing, wherever it stands. */
  lemma IgnoredAttribute(name: string, pre: seq<Attribute>, attr: Attribute, post: seq<Attribute>)
    requires !IsVoltaFailPath(attr.path)
    ensures Derive(name, pre + [attr] + post) == Derive(name, pre + post)
  {
    StepsAppend(pre + [attr], post);
    StepsAppend(pre, [attr]);
    StepsAppend(pre, post);
    StepsOne(attr);
    assert Steps(pre + [attr]) == Steps(pre) + [] == Steps(pre);
  }

  /** A `volta_fail` attribute that is not a list makes the derive fail, with its own
      rejection unless an earlier step was already rejected. */
  lemma MalformedAttributeRejects(name: string, pre: seq<Attribute>, attr: Attribute, post: seq<Attribute>)
    requires IsVoltaFailPath(attr.path) && !IsListForm(attr)
    ensures Derive(name, pre + [attr] + post).Err?
    ensures FirstError(Steps(pre)) == None ==> Derive(name, pre + [attr] + post) == Err(NotListOfAttributes)
  {
    StepsAppend(pre + [attr], post);
    StepsAppend(pre, [attr]);
    StepsOne(attr);
    var steps := Steps(pre + [attr] + post);
    assert steps == Steps(pre) + ([Malformed] + Steps(post));
    FirstErrorAppend(Steps(pre), [Malformed] + Steps(post));
  }

  /** Attributes that derive on their own, placed after others with no rejection, decide
      the code, whether or not the earlier ones set one. */
  lemma LaterAttributesOverride(name: string, pre: seq<Attribute>, post: seq<Attribute>)
    requires FirstError(Steps(pre)) == None && Derive(name, post).Ok?
    ensures Derive(name, pre + post) == Derive(name, post)
  {
    StepsAppend(pre, post);
    var a, b := Steps(pre), Steps(post);
    FirstErrorAppend(a, b);
    DeriveAccepts(name, post);
    assert (a + b)[..|a + b| - 1] == a + b[..|b| - 1];
  }

  /** A single `#[volta_fail(item)]` derives the item's code, or fails with its rejection. */
  lemma SoleItem(name: string, item: NestedMeta)
    ensures Derive(name, [Attribute(["volta_fail"], Some(List("volta_fail", [item])))])
            == match CheckItem(item)
               case Ok(code) => Ok(VoltaFailImpl(name, code))
               case Err(e) => Err(e)
  {
    var attr := Attribute(["volta_fail"], Some(List("volta_fail", [item])));
    StepsOne(attr);
    assert ItemSteps([item], 1) == [Visit(item)];
    assert [Visit(item)][1..] == [];
    assert [Visit(item)][..0] == [];
    assert FirstError([Visit(item)]) == if CheckItem(item).Err? then Some(CheckItem(item).error) else None;
    assert LastCode([Visit(item)]) == if CheckItem(item).Ok? then Some(CheckItem(item).value) else None;
  }
}
