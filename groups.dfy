/** Group inference from link types (script.js:48-57), and what the final
    group decides: the node's radius (script.js:63-68) and its fill colour
    (script.js:99-104). */
module Groups {
  import opened Wrappers
  import opened Links

  /** The group a node is created with, and the three groups the script infers. */
  const Unset := ""
  const Company := "company"
  const Field := "field"
  const Role := "role"

  /** The groups a link of this type writes to its source and to its target;
      `None` for every other type, which writes nothing. */
  function Roles(linkType: Cell): (roles: Option<(string, string)>)
    ensures roles.Some? <==> linkType in {CompanyField, FieldRole, RoleCompany}
    ensures roles.Some? ==>
              roles.value.0 in {Company, Field, Role} &&
              roles.value.1 in {Company, Field, Role} &&
              roles.value.0 != roles.value.1
  {
    if linkType == CompanyField then Some((Company, Field))
    else if linkType == FieldRole then Some((Field, Role))
    else if linkType == RoleCompany then Some((Role, Company))
    else None
  }

  /** The group that processing `link` leaves on node `k`, if it writes one.
      The target is written after the source, so on a self-loop the target's
      group is the one that stays. */
  function Written(link: Link, k: Cell): (w: Option<string>)
    ensures w.Some? <==>
              (link.linkType in {CompanyField, FieldRole, RoleCompany} &&
               (k == link.source || k == link.target))
    ensures link.linkType == CompanyField ==>
              (k == link.target ==> w == Some(Field)) &&
              (k == link.source && k != link.target ==> w == Some(Company))
    ensures link.linkType == FieldRole ==>
              (k == link.target ==> w == Some(Role)) &&
              (k == link.source && k != link.target ==> w == Some(Field))
    ensures link.linkType == RoleCompany ==>
              (k == link.target ==> w == Some(Company)) &&
              (k == link.source && k != link.target ==> w == Some(Role))
  {
    match Roles(link.linkType)
    case None => None
    case Some((sourceGroup, targetGroup)) =>
      if k == link.target then Some(targetGroup)
      else if k == link.source then Some(sourceGroup)
      else None
  }

  /** The group of node `k` once every link has been processed in order:
      each link overwrites what the links before it wrote. It is always one
      of the three inferred groups or still empty. */
  function GroupAfter(links: seq<Link>, k: Cell): (group: string)
    ensures group in {Unset, Company, Field, Role}
  {
    if links == [] then Unset
    else Written(links[|links| - 1], k).GetOr(GroupAfter(links[..|links| - 1], k))
  }

  /** Last writer wins: the final group is the one written by the last link
      that names `k` as an endpoint and has a recognised type. */
  lemma {:induction false} LastWriterWins(links: seq<Link>, k: Cell, i: nat)
    requires i < |links| && Written(links[i], k).Some?
    requires forall j :: i < j < |links| ==> Written(links[j], k).None?
    ensures GroupAfter(links, k) == Written(links[i], k).value
  {
    var n := |links| - 1;
    if i < n {
      LastWriterWins(links[..n], k, i);
    }
  }

  /** A node that no link of a recognised type names keeps the empty group. */
  lemma {:induction false} NeverWrittenIsUnset(links: seq<Link>, k: Cell)
    requires forall j :: 0 <= j < |links| ==> Written(links[j], k).None?
    ensures GroupAfter(links, k) == Unset
  {
    if links != [] {
      NeverWrittenIsUnset(links[..|links| - 1], k);
    }
  }

  /** The radius of a node of this group. */
  function Radius(group: string): (r: int)
    ensures r == 15 <==> group == Company
    ensures r == 10 <==> group == Field
    ensures r == 7 <==> group == Role
    ensures r == 5 <==> group !in {Company, Field, Role}
  {
    if group == Company then 15
    else if group == Field then 10
    else if group == Role then 7
    else 5
  }

  /** The fill colour of a node of this group. */
  function Fill(group: string): (colour: string)
    ensures colour == "steelblue" <==> group == Company
    ensures colour == "lightcoral" <==> group == Field
    ensures colour == "mediumseagreen" <==> group == Role
    ensures colour == "gray" <==> group !in {Company, Field, Role}
  {
    if group == Company then "steelblue"
    else if group == Field then "lightcoral"
    else if group == Role then "mediumseagreen"
    else "gray"
  }

  /** Radius and colour tell the same story: two nodes of different
      inferred groups differ in both, and every uninferred group is drawn
      small and gray. */
  lemma RadiusMatchesFill(g: string, h: string)
    ensures Radius(g) == Radius(h) <==> Fill(g) == Fill(h)
  {
  }

  /** The script's worked example: `A -Company-Field-> B -Field-Role-> C`
      gives A company, B field and C role, with radii 15, 10 and 7. */
  lemma ScenarioGroups(v: Amount, w: Amount)
    ensures var links := [Link(Str("A"), Str("B"), CompanyField, v),
                          Link(Str("B"), Str("C"), FieldRole, w)];
            && GroupAfter(links, Str("A")) == Company && Radius(Company) == 15
            && GroupAfter(links, Str("B")) == Field && Radius(Field) == 10
            && GroupAfter(links, Str("C")) == Role && Radius(Role) == 7
  {
  }

  /** A self-loop of type `Company-Field` leaves its node in the target's
      group, `field`. */
  lemma SelfLoopTakesTargetGroup(links: seq<Link>, a: Cell, v: Amount)
    ensures GroupAfter(links + [Link(a, a, CompanyField, v)], a) == Field
  {
  }
}
