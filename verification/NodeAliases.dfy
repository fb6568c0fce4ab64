/** Stable short names for nodes in the harness's report. */
module NodeAliases {
  import opened Options
  import opened Decimal

  /** Letters for the first 26 nodes, then one-based decimal numbers. */
  function Suffix(index: nat): string {
    if index < 26 then [('a' as int + index) as char] else Digits(index + 1)
  }

  function Alias(prefix: string, index: nat): string {
    prefix + "-" + Suffix(index)
  }

  /** Where the letters begin and end, and how numbering goes on. */
  lemma AliasTexts(prefix: string, index: nat)
    ensures Alias(prefix, 0) == prefix + "-a" && Alias(prefix, 25) == prefix + "-z"
    ensures Alias(prefix, 26) == prefix + "-27"
    ensures index < 26 ==> Alias(prefix, index) == prefix + "-" + ["abcdefghijklmnopqrstuvwxyz"[index]]
    ensures index >= 26 ==> exists d :: Alias(prefix, index) == prefix + "-" + d && ReadDigits(d) == Some(index + 1)
  {
    assert Digits(2) == "2" && Digits(27) == "27";
    assert prefix + "-" + "a" == prefix + "-a" && prefix + "-" + "z" == prefix + "-z" &&
           prefix + "-" + "27" == prefix + "-27";
    if index >= 26 {
      ReadShownDigits(index + 1);
      assert Alias(prefix, index) == prefix + "-" + Digits(index + 1);
    }
  }

  lemma SuffixesDiffer(i: nat, j: nat)
    requires Suffix(i) == Suffix(j)
    ensures i == j
  {
    if i >= 26 && j >= 26 {
      ValueOfDigits(i + 1);
      ValueOfDigits(j + 1);
    } else {
      assert Suffix(i)[0] == Suffix(j)[0];
    }
  }

  /** No two positions share an alias. */
  lemma AliasesDiffer(prefix: string, i: nat, j: nat)
    requires Alias(prefix, i) == Alias(prefix, j)
    ensures i == j
  {
    var head := prefix + "-";
    assert (head + Suffix(i))[|head|..] == Suffix(i);
    assert (head + Suffix(j))[|head|..] == Suffix(j);
    SuffixesDiffer(i, j);
  }

  /** `aliases` holds the nodes of `order`, each under the alias of its position. */
  ghost predicate IsTable(prefix: string, aliases: map<string, string>, order: seq<string>) {
    |order| == |aliases| &&
    (forall node :: node in aliases <==> node in order) &&
    (forall i, j :: 0 <= i < j < |order| ==> order[i] != order[j]) &&
    forall i :: 0 <= i < |order| ==> order[i] in aliases && aliases[order[i]] == Alias(prefix, i)
  }

  lemma OrderGrows(order: seq<string>, node: string)
    requires node !in order && forall i, j :: 0 <= i < j < |order| ==> order[i] != order[j]
    ensures var more := order + [node];
      (forall n :: n in more <==> n in order || n == node) &&
      forall i, j :: 0 <= i < j < |more| ==> more[i] != more[j]
  {
    var more := order + [node];
    forall i, j | 0 <= i < j < |more|
      ensures more[i] != more[j]
    {
      assert order[i] in order;
    }
  }

  lemma EntriesStay(prefix: string, aliases: map<string, string>, order: seq<string>, node: string, alias: string)
    requires IsTable(prefix, aliases, order) && node !in aliases
    ensures forall i :: 0 <= i < |order| ==>
      order[i] in aliases[node := alias] && aliases[node := alias][order[i]] == Alias(prefix, i)
  {
    forall i | 0 <= i < |order|
      ensures order[i] in aliases && order[i] != node
    {
      assert order[i] in order;
    }
  }

  lemma TableGrows(prefix: string, aliases: map<string, string>, order: seq<string>, node: string)
    requires IsTable(prefix, aliases, order) && node !in aliases
    ensures IsTable(prefix, aliases[node := Alias(prefix, |aliases|)], order + [node])
  {
    var more, table := order + [node], aliases[node := Alias(prefix, |aliases|)];
    OrderGrows(order, node);
    EntriesStay(prefix, aliases, order, node, Alias(prefix, |aliases|));
    EntriesGrow(prefix, table, order, node);
    TableSize(aliases, node, Alias(prefix, |aliases|));
  }

  lemma TableSize(aliases: map<string, string>, node: string, alias: string)
    requires node !in aliases
    ensures |aliases[node := alias]| == |aliases| + 1
    ensures forall n :: n in aliases[node := alias] <==> n in aliases || n == node
  {
    assert aliases[node := alias].Keys == aliases.Keys + {node};
  }

  lemma EntriesGrow(prefix: string, table: map<string, string>, order: seq<string>, node: string)
    requires forall i :: 0 <= i < |order| ==> order[i] in table && table[order[i]] == Alias(prefix, i)
    requires node in table && table[node] == Alias(prefix, |order|)
    ensures forall i :: 0 <= i < |order + [node]| ==>
      (order + [node])[i] in table && table[(order + [node])[i]] == Alias(prefix, i)
  {
    var more := order + [node];
    forall i | 0 <= i < |more|
      ensures more[i] in table && table[more[i]] == Alias(prefix, i)
    {
      assert more[i] == if i < |order| then order[i] else node;
    }
  }

  class NodeAliases {
    const prefix: string
    var aliases: map<string, string>
    /** The nodes in the order in which they were first seen. */
    ghost var order: seq<string>

    ghost predicate Valid()
      reads this
    {
      IsTable(prefix, aliases, order)
    }

    constructor (prefix: string)
      ensures Valid() && this.prefix == prefix && aliases == map[] && order == []
    {
      this.prefix := prefix;
      aliases := map[];
      order := [];
    }

    /** `get`: the node's alias, assigned on first sight and never changed. */
    method Get(node: string) returns (alias: string)
      requires Valid()
      modifies this
      ensures Valid()
      ensures node in aliases && alias == aliases[node]
      ensures order == if node in old(aliases) then old(order) else old(order) + [node]
      ensures aliases ==
        if node in old(aliases) then old(aliases) else old(aliases)[node := Alias(prefix, |old(order)|)]
    {
      if node !in aliases {
        TableGrows(prefix, aliases, order, node);
        aliases := aliases[node := Alias(prefix, |aliases|)];
        order := order + [node];
      }
      return aliases[node];
    }

    /** Different nodes have different aliases. */
    lemma Injective()
      requires Valid()
      ensures forall m, n :: m in aliases && n in aliases && m != n ==> aliases[m] != aliases[n]
    {
      forall m, n | m in aliases && n in aliases && m != n
        ensures aliases[m] != aliases[n]
      {
        var i :| 0 <= i < |order| && order[i] == m;
        var j :| 0 <= j < |order| && order[j] == n;
        if aliases[m] == aliases[n] {
          AliasesDiffer(prefix, i, j);
        }
      }
    }

    /** `mapping`: the exact inverse of the stored table. */
    method Mapping() returns (nodes: map<string, string>)
      requires Valid()
      ensures forall node :: node in aliases ==> aliases[node] in nodes && nodes[aliases[node]] == node
      ensures forall alias :: alias in nodes ==> nodes[alias] in aliases && aliases[nodes[alias]] == alias
    {
      Injective();
      nodes := map node | node in aliases :: aliases[node] := node;
    }
  }
}
