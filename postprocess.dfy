/**
 * Post-processing of fetched content (src/main.ts): the renderer rule that makes every
 * rendered link open in a new browsing context, and the pass that turns each project's
 * Markdown description into HTML before the projects are stored.
 */
module PostProcess {
  import opened Wrappers
  import opened Api

  /** One attribute of a Markdown token: its name and its value. */
  type Attr = (string, string)

  const TargetName: string := "target"
  const BlankValue: string := "_blank"

  /**
   * The position of the first attribute called `name`, or -1 when there is none. It has the shape of
   * the store's tag search, but compares only the name of each (name, value) pair.
   */
  function IndexOfName(attrs: seq<Attr>, name: string): (r: int)
    ensures -1 <= r < |attrs|
    ensures r == -1 <==> forall j :: 0 <= j < |attrs| ==> attrs[j].0 != name
    ensures 0 <= r ==> attrs[r].0 == name && forall j :: 0 <= j < r ==> attrs[j].0 != name
  {
    if attrs == [] then -1
    else if attrs[0].0 == name then 0
    else
      var k := IndexOfName(attrs[1..], name);
      if k == -1 then -1 else k + 1
  }

  /** The token's attribute list seen as a sequence; a null list holds no attributes. */
  function AttrList(attrs: Option<seq<Attr>>): (r: seq<Attr>)
    ensures attrs.None? ==> r == []
    ensures attrs.Some? ==> r == attrs.value
  {
    attrs.GetOr([])
  }

  /** The token's `attrIndex(name)`: the first position of `name`, or -1 (also when the list is null). */
  function FirstAttrIndex(attrs: Option<seq<Attr>>, name: string): (r: int)
    ensures -1 <= r < |AttrList(attrs)|
    ensures r >= 0 ==> attrs.Some?
    ensures attrs.None? ==> r == -1
    ensures attrs.Some? ==> r == IndexOfName(attrs.value, name)
  {
    match attrs
    case None => -1
    case Some(list) => IndexOfName(list, name)
  }

  /** The attribute list after the `link_open` rule has run on it. */
  function Rewrite(attrs: Option<seq<Attr>>): (r: Option<seq<Attr>>)
    ensures r.Some?
    ensures |AttrList(attrs)| <= |r.value| <= |AttrList(attrs)| + 1
    ensures forall j :: 0 <= j < |AttrList(attrs)| && j != FirstAttrIndex(attrs, TargetName) ==>
      r.value[j] == AttrList(attrs)[j]
    ensures (TargetName, BlankValue) in r.value
  {
    var aIndex := FirstAttrIndex(attrs, TargetName);
    if aIndex < 0 then
      var pushed := AttrList(attrs) + [(TargetName, BlankValue)];
      assert pushed[|pushed| - 1] == (TargetName, BlankValue);
      Some(pushed)
    else
      var overwritten := attrs.value[aIndex := (attrs.value[aIndex].0, BlankValue)];
      assert overwritten[aIndex] == (TargetName, BlankValue);
      Some(overwritten)
  }

  /** The list has a `target` attribute and the first one says `_blank`. */
  predicate OpensInNewTab(attrs: Option<seq<Attr>>) {
    var i := FirstAttrIndex(attrs, TargetName);
    0 <= i && attrs.value[i].1 == BlankValue
  }

  /** The first attribute called `name` is the one at `k` when nothing before `k` has that name. */
  lemma IndexOfNameAt(attrs: seq<Attr>, name: string, k: nat)
    requires k < |attrs| && attrs[k].0 == name
    requires forall j :: 0 <= j < k ==> attrs[j].0 != name
    ensures IndexOfName(attrs, name) == k
  {
  }

  /** Without a `target` attribute, the rule appends `target="_blank"` and keeps every existing attribute. */
  lemma RewriteAppendsWhenAbsent(attrs: Option<seq<Attr>>)
    requires FirstAttrIndex(attrs, TargetName) < 0
    ensures Rewrite(attrs).Some?
    ensures var r := Rewrite(attrs).value;
      |r| == |AttrList(attrs)| + 1 &&
      r[..|AttrList(attrs)|] == AttrList(attrs) &&
      r[|AttrList(attrs)|] == (TargetName, BlankValue)
  {
  }

  /**
   * With a first `target` attribute at `i`, the rule sets only its value to `_blank`:
   * the name, the length and every other attribute stay as they were.
   */
  lemma RewriteOverwritesWhenPresent(attrs: Option<seq<Attr>>)
    requires FirstAttrIndex(attrs, TargetName) >= 0
    ensures Rewrite(attrs).Some?
    ensures var i := FirstAttrIndex(attrs, TargetName);
      var r := Rewrite(attrs).value;
      |r| == |attrs.value| &&
      r[i] == (TargetName, BlankValue) &&
      (forall j :: 0 <= j < |r| && j != i ==> r[j] == attrs.value[j])
  {
  }

  /** After the rule the token always opens its link in a new tab, whatever it held before. */
  lemma RewriteOpensInNewTab(attrs: Option<seq<Attr>>)
    ensures OpensInNewTab(Rewrite(attrs))
    ensures FirstAttrIndex(Rewrite(attrs), TargetName) ==
      if FirstAttrIndex(attrs, TargetName) < 0 then |AttrList(attrs)| else FirstAttrIndex(attrs, TargetName)
  {
    var i := FirstAttrIndex(attrs, TargetName);
    var r := Rewrite(attrs).value;
    if i < 0 {
      assert forall j :: 0 <= j < |AttrList(attrs)| ==> AttrList(attrs)[j].0 != TargetName;
      IndexOfNameAt(r, TargetName, |AttrList(attrs)|);
    } else {
      IndexOfNameAt(r, TargetName, i);
    }
  }

  /** Running the rule a second time changes nothing. */
  lemma RewriteIdempotent(attrs: Option<seq<Attr>>)
    ensures Rewrite(Rewrite(attrs)) == Rewrite(attrs)
  {
    RewriteOpensInNewTab(attrs);
    var r := Rewrite(attrs).value;
    var i := FirstAttrIndex(Rewrite(attrs), TargetName);
    assert r[i := (r[i].0, BlankValue)] == r;
  }

  /** A Markdown token, reduced to its attribute list (`null` when it has none). */
  class Token {
    var attrs: Option<seq<Attr>>

    constructor (attrs: Option<seq<Attr>>)
      ensures this.attrs == attrs
    {
      this.attrs := attrs;
    }

    /** `attrIndex`: the first position of an attribute called `name`, or -1. */
    function AttrIndex(name: string): (r: int)
      reads this
      ensures -1 <= r < |AttrList(attrs)|
      ensures r == -1 <==> forall j :: 0 <= j < |AttrList(attrs)| ==> AttrList(attrs)[j].0 != name
      ensures 0 <= r ==> attrs.Some? && attrs.value[r].0 == name
      ensures 0 <= r ==> forall j :: 0 <= j < r ==> attrs.value[j].0 != name
    {
      FirstAttrIndex(attrs, name)
    }

    /** `attrPush`: appends `attr`, creating the list when the token has none. */
    method AttrPush(attr: Attr)
      modifies this
      ensures attrs == Some(AttrList(old(attrs)) + [attr])
    {
      match attrs
      case None =>
        assert AttrList(old(attrs)) + [attr] == [attr];
        attrs := Some([attr]);
      case Some(list) => attrs := Some(list + [attr]);
    }
  }

  /** The `link_open` rule, applied to `tokens[idx]` before it is handed to the default renderer. */
  method LinkOpen(tokens: seq<Token>, idx: nat)
    requires idx < |tokens|
    modifies tokens[idx]
    ensures tokens[idx].attrs == Rewrite(old(tokens[idx].attrs))
    ensures OpensInNewTab(tokens[idx].attrs)
  {
    var token := tokens[idx];
    var aIndex := token.AttrIndex(TargetName);
    if aIndex < 0 {
      token.AttrPush((TargetName, BlankValue));
    } else {
      var attrs := token.attrs;
      if attrs.Some? {
        token.attrs := Some(attrs.value[aIndex := (attrs.value[aIndex].0, BlankValue)]);
      }
    }
    RewriteOpensInNewTab(old(tokens[idx].attrs));
  }

  /** A project as stored: its description rendered when it was truthy, untouched otherwise. */
  function RenderDescription(p: Project, render: string -> string): (q: Project)
    ensures q.(description := p.description) == p
    ensures Truthy(p.description) ==> q.description == Some(render(p.description.value))
    ensures !Truthy(p.description) ==> q == p
  {
    if Truthy(p.description) then p.(description := Some(render(p.description.value))) else p
  }

  /** The loop of `getProjects`: renders every truthy description in place, once, keeping order and length. */
  method RenderDescriptions(projects: array<Project>, render: string -> string)
    modifies projects
    ensures forall i :: 0 <= i < projects.Length ==> projects[i] == RenderDescription(old(projects[i]), render)
  {
    var i := 0;
    while i < projects.Length
      invariant 0 <= i <= projects.Length
      invariant forall k :: 0 <= k < i ==> projects[k] == RenderDescription(old(projects[k]), render)
      invariant forall k :: i <= k < projects.Length ==> projects[k] == old(projects[k])
    {
      var project := projects[i];
      if Truthy(project.description) {
        projects[i] := project.(description := Some(render(project.description.value)));
      }
      i := i + 1;
    }
  }

  /**
   * Rendering is not idempotent: whenever the renderer changes its own output, a second pass
   * would render the HTML again, which is why the pass runs exactly once per fetched project.
   */
  lemma RenderTwiceDiffers(p: Project, render: string -> string)
    requires Truthy(p.description)
    requires render(p.description.value) != ""
    requires render(render(p.description.value)) != render(p.description.value)
    ensures RenderDescription(RenderDescription(p, render), render) != RenderDescription(p, render)
  {
  }
}
