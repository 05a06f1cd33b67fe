/** The admin node record, reduced to the attributes the upgrade launcher touches. */
module Nodes {
  import opened Wrappers

  /** A node attribute value as the node registry stores it. */
  datatype Attr = Nil | Bool(b: bool) | Str(s: string) | Num(n: int)

  /** Ruby truthiness: every value except `nil` and `false`. */
  predicate Truthy(a: Attr)
  {
    !a.Nil? && a != Bool(false)
  }

  /** Ruby's `hash[key]`: a missing key reads as `nil`. */
  function Lookup(m: map<string, Attr>, key: string): Attr
  {
    if key in m then m[key] else Nil
  }

  const DefaultOs := "default_os"

  /** The admin node. `provisioner` is `None` when that attribute is nil or absent;
      `attributes` holds every other attribute, which the launcher never changes. */
  datatype AdminNode = AdminNode(
    targetPlatform: string,
    provisioner: Option<map<string, Attr>>,
    attributes: map<string, Attr>)

  /** Removes a stale `default_os` from the provisioner settings. The source deletes
      the key only when it reads truthy, so a `nil` or `false` entry survives. */
  function DropDefaultOs(p: map<string, Attr>): (r: map<string, Attr>)
    ensures !Truthy(Lookup(r, DefaultOs))
    ensures r.Keys <= p.Keys
    ensures forall k :: k in p && k != DefaultOs ==> k in r && r[k] == p[k]
    ensures Truthy(Lookup(p, DefaultOs)) <==> DefaultOs in p && DefaultOs !in r
    ensures !Truthy(Lookup(p, DefaultOs)) ==> r == p
  {
    if Truthy(Lookup(p, DefaultOs)) then p - {DefaultOs} else p
  }

  /** Marks the node's OS identity as unknown for the duration of the upgrade:
      the target platform becomes empty and a stale `default_os` is dropped. */
  function ClearPlatform(n: AdminNode): (r: AdminNode)
    ensures r.targetPlatform == ""
    ensures r.attributes == n.attributes
    ensures r.provisioner.None? <==> n.provisioner.None?
    ensures n.provisioner.Some? && !Truthy(Lookup(n.provisioner.value, DefaultOs)) ==>
              r.provisioner == n.provisioner
    ensures n.provisioner.Some? && Truthy(Lookup(n.provisioner.value, DefaultOs)) ==>
              r.provisioner.Some? && DefaultOs !in r.provisioner.value
    ensures r.provisioner.Some? ==>
              && !Truthy(Lookup(r.provisioner.value, DefaultOs))
              && r.provisioner.value.Keys <= n.provisioner.value.Keys
              && (forall k :: k in n.provisioner.value && k != DefaultOs ==>
                    k in r.provisioner.value && r.provisioner.value[k] == n.provisioner.value[k])
  {
    var p := match n.provisioner
      case None => None
      case Some(m) => Some(DropDefaultOs(m));
    n.(targetPlatform := "", provisioner := p)
  }

  /** Clearing twice is the same as clearing once: a repeated launch leaves the
      node as the first one did. */
  lemma ClearPlatformIdempotent(n: AdminNode)
    ensures ClearPlatform(ClearPlatform(n)) == ClearPlatform(n)
  {
  }
}
