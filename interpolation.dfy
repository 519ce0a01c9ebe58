/** Substitution of role placeholders in a merge tool's argument template.
    An argument that is exactly `$` followed by a role of the table becomes
    that role's path; every other argument is passed on as literal text. */
module Interpolation {
  import opened Common

  /** The placeholder written in a template for `role`. */
  function Sigil(role: string): string {
    "$" + role
  }

  lemma SigilInjective(role1: string, role2: string)
    requires Sigil(role1) == Sigil(role2)
    ensures role1 == role2
  {
    assert role1 == Sigil(role1)[1..];
    assert role2 == Sigil(role2)[1..];
  }

  /** One template argument: the path of the role it names, or the argument
      itself. */
  function InterpolateArg(arg: string, paths: map<string, Path>): (r: Arg)
    ensures r.PathArg? <==> exists role :: role in paths && arg == Sigil(role)
    ensures forall role :: role in paths && arg == Sigil(role) ==> r == PathArg(paths[role])
    ensures r.Literal? ==> r == Literal(arg)
  {
    if |arg| > 0 && arg[0] == '$' && arg[1..] in paths then
      assert arg == Sigil(arg[1..]);
      PathArg(paths[arg[1..]])
    else
      assert forall role :: arg == Sigil(role) ==> |arg| > 0 && arg[0] == '$' && arg[1..] == role;
      Literal(arg)
  }

  /** The argument list for a template: each argument interpolated on its own,
      in order. */
  function Interpolate(args: seq<string>, paths: map<string, Path>): (r: seq<Arg>)
    ensures |r| == |args|
    ensures forall i :: 0 <= i < |args| ==> r[i] == InterpolateArg(args[i], paths)
  {
    if args == [] then []
    else [InterpolateArg(args[0], paths)] + Interpolate(args[1..], paths)
  }

  /** Arguments passed on as they are, with no substitution. */
  function Literals(args: seq<string>): (r: seq<Arg>)
    ensures |r| == |args|
    ensures forall i :: 0 <= i < |args| ==> r[i] == Literal(args[i])
  {
    if args == [] then []
    else [Literal(args[0])] + Literals(args[1..])
  }

  /** A placeholder for a role missing from the table is kept as literal text. */
  lemma UnknownSigilIsLiteral(role: string, paths: map<string, Path>)
    requires role !in paths
    ensures InterpolateArg(Sigil(role), paths) == Literal(Sigil(role))
  {
    forall other | other in paths && Sigil(role) == Sigil(other)
      ensures false
    {
      SigilInjective(role, other);
    }
  }

  /** A placeholder inside a longer argument is not substituted: an argument
      that does not begin with `$` is always kept as literal text. */
  lemma EmbeddedSigilIsLiteral(arg: string, paths: map<string, Path>)
    requires arg == [] || arg[0] != '$'
    ensures InterpolateArg(arg, paths) == Literal(arg)
  {
    assert forall role :: Sigil(role)[0] == '$';
  }

  /** Every path in the result is the path of some role of the table, and the
      literal arguments are exactly those of the template at the same place. */
  lemma InterpolatedPathsComeFromTable(args: seq<string>, paths: map<string, Path>)
    ensures forall i :: 0 <= i < |args| && Interpolate(args, paths)[i].PathArg? ==>
              Interpolate(args, paths)[i].path in paths.Values
    ensures forall i :: 0 <= i < |args| && Interpolate(args, paths)[i].Literal? ==>
              Interpolate(args, paths)[i].text == args[i]
  {
    var r := Interpolate(args, paths);
    forall i | 0 <= i < |args| && r[i].PathArg?
      ensures r[i].path in paths.Values
    {
      var role :| role in paths && args[i] == Sigil(role);
      assert r[i] == PathArg(paths[role]);
    }
  }
}
