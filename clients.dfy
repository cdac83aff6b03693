/** Billing per client (app.py:262-288): the table grouped by client name with total,
    invoice count and average per invoice, the top ten clients by total with their
    share of the top ten's subtotal, and the per-client invoice listing (app.py:330-339). */
module Clients {
  import opened Wrappers
  import opened Invoices
  import opened Grouping

  /** The grouping key of the client table. */
  function ClientKey(r: Invoice): string
  {
    r.clientName
  }

  /** Code-point lexicographic order of names, the order in which groupby lists its keys. */
  predicate NameBefore(a: string, b: string)
  {
    if |a| == 0 then |b| > 0
    else if |b| == 0 then false
    else a[0] < b[0] || (a[0] == b[0] && NameBefore(a[1..], b[1..]))
  }

  lemma {:induction false} NameBeforeIrreflexive(a: string)
    ensures !NameBefore(a, a)
    decreases |a|
  {
    if |a| > 0 {
      NameBeforeIrreflexive(a[1..]);
    }
  }

  lemma {:induction false} NameBeforeTransitive(a: string, b: string, c: string)
    requires NameBefore(a, b) && NameBefore(b, c)
    ensures NameBefore(a, c)
    decreases |a|
  {
    if |a| > 0 && a[0] == b[0] && b[0] == c[0] {
      NameBeforeTransitive(a[1..], b[1..], c[1..]);
    }
  }

  lemma {:induction false} NameBeforeTotal(a: string, b: string)
    ensures a == b || NameBefore(a, b) || NameBefore(b, a)
    decreases |a|
  {
    if |a| > 0 && |b| > 0 && a[0] == b[0] {
      NameBeforeTotal(a[1..], b[1..]);
      if a[1..] == b[1..] {
        assert a == [a[0]] + a[1..] && b == [b[0]] + b[1..];
      }
    }
  }

  /** One row of the client table. */
  datatype ClientSummary = ClientSummary(name: string, total: real, count: nat, average: real)

  /** pandas round(2): to the nearest hundredth, halves to the even hundredth. */
  function Round2(x: real): (r: real)
    ensures -0.005 <= r - x <= 0.005
    ensures (r * 100.0).Floor as real == r * 100.0
    ensures x * 100.0 - (x * 100.0).Floor as real != 0.5 ==> -0.005 < r - x < 0.005
    ensures x * 100.0 - (x * 100.0).Floor as real == 0.5 ==> (r * 100.0).Floor % 2 == 0
  {
    var n := RoundHalfEven(x * 100.0);
    assert (n as real / 100.0) * 100.0 == n as real;
    n as real / 100.0
  }

  /** The integer nearest to y, the even one of two at the same distance. */
  function RoundHalfEven(y: real): (n: int)
    ensures -0.5 <= n as real - y <= 0.5
    ensures y - y.Floor as real != 0.5 ==> -0.5 < n as real - y < 0.5
    ensures y - y.Floor as real == 0.5 ==> n % 2 == 0
  {
    var f := y.Floor;
    if y - f as real < 0.5 then f
    else if y - f as real > 0.5 then f + 1
    else if f % 2 == 0 then f else f + 1
  }

  /** The name column of a client table. */
  function Names(clients: seq<ClientSummary>): seq<string>
  {
    seq(|clients|, k requires 0 <= k < |clients| => clients[k].name)
  }

  predicate NamesAscending(clients: seq<ClientSummary>)
  {
    forall i, j :: 0 <= i < j < |clients| ==> NameBefore(clients[i].name, clients[j].name)
  }

  /** One row per client name of the table, in name order, each with the sum of that
      client's amounts and the number of its invoices. */
  ghost predicate GroupedByClient(rows: seq<Invoice>, clients: seq<ClientSummary>)
  {
    && NamesAscending(clients)
    && (forall n :: n in Names(clients) <==> n in KeysOf(rows, ClientKey))
    && (forall k :: 0 <= k < |clients| ==> clients[k].total == KeyTotal(rows, ClientKey, clients[k].name))
    && (forall k :: 0 <= k < |clients| ==> clients[k].count == KeyCount(rows, ClientKey, clients[k].name) > 0)
  }

  /** The grouped table with its average-per-invoice column. */
  ghost predicate IsClientTable(rows: seq<Invoice>, clients: seq<ClientSummary>)
  {
    && GroupedByClient(rows, clients)
    && (forall k :: 0 <= k < |clients| ==> clients[k].average == Round2(clients[k].total / (clients[k].count as real)))
  }

  lemma ClientSnoc(seen: seq<Invoice>, r: Invoice)
    ensures forall x :: KeyTotal(seen + [r], ClientKey, x)
                        == KeyTotal(seen, ClientKey, x) + (if ClientKey(r) == x then r.amount else 0.0)
    ensures forall x :: KeyCount(seen + [r], ClientKey, x)
                        == KeyCount(seen, ClientKey, x) + (if ClientKey(r) == x then 1 else 0)
    ensures KeysOf(seen + [r], ClientKey) == KeysOf(seen, ClientKey) + {ClientKey(r)}
  {
    forall x: string
      ensures KeyTotal(seen + [r], ClientKey, x) == KeyTotal(seen, ClientKey, x) + (if ClientKey(r) == x then r.amount else 0.0)
      ensures KeyCount(seen + [r], ClientKey, x) == KeyCount(seen, ClientKey, x) + (if ClientKey(r) == x then 1 else 0)
    {
      KeySnoc(seen, ClientKey, r, x);
    }
    KeySnoc(seen, ClientKey, r, ClientKey(r));
  }

  lemma NamesDistinct(clients: seq<ClientSummary>, i: nat, j: nat)
    requires NamesAscending(clients) && i < |clients| && j < |clients| && i != j
    ensures clients[i].name != clients[j].name
  {
    if i < j {
      NameBeforeIrreflexive(clients[i].name);
    } else {
      NameBeforeIrreflexive(clients[j].name);
    }
  }

  /** Booking a row into the existing row j of its client keeps the table grouped. */
  lemma BookIntoClient(clients: seq<ClientSummary>, seen: seq<Invoice>, r: Invoice, j: nat)
    requires GroupedByClient(seen, clients)
    requires j < |clients| && clients[j].name == ClientKey(r)
    ensures GroupedByClient(seen + [r], clients[j := clients[j].(total := clients[j].total + r.amount, count := clients[j].count + 1)])
  {
    var out := clients[j := clients[j].(total := clients[j].total + r.amount, count := clients[j].count + 1)];
    ClientSnoc(seen, r);
    assert Names(out) == Names(clients);
    assert Names(clients)[j] == ClientKey(r);
    forall k | 0 <= k < |out| && k != j ensures out[k].name != ClientKey(r) {
      NamesDistinct(clients, k, j);
    }
  }

  /** A name that sorts strictly between the rows before and after position j is not
      among the names of the table. */
  lemma NewNameAbsent(clients: seq<ClientSummary>, n: string, j: nat)
    requires NamesAscending(clients) && j <= |clients|
    requires forall k :: 0 <= k < j ==> NameBefore(clients[k].name, n)
    requires j < |clients| ==> !NameBefore(clients[j].name, n) && clients[j].name != n
    ensures n !in Names(clients)
    ensures j < |clients| ==> NameBefore(n, clients[j].name)
  {
    if j < |clients| {
      NameBeforeTotal(n, clients[j].name);
    }
    forall k | 0 <= k < |clients| ensures clients[k].name != n {
      if k < j {
        NameBeforeIrreflexive(n);
      } else if j < k {
        assert NameBefore(clients[j].name, clients[k].name);
      }
    }
  }

  lemma InsertNamesAscending(clients: seq<ClientSummary>, c: ClientSummary, j: nat)
    requires NamesAscending(clients) && j <= |clients|
    requires forall k :: 0 <= k < j ==> NameBefore(clients[k].name, c.name)
    requires j < |clients| ==> NameBefore(c.name, clients[j].name)
    ensures NamesAscending(clients[..j] + [c] + clients[j..])
  {
    var out := clients[..j] + [c] + clients[j..];
    forall i, k | 0 <= i < k < |out| ensures NameBefore(out[i].name, out[k].name) {
      if i == j && j + 1 < k {
        NameBeforeTransitive(c.name, clients[j].name, clients[k - 1].name);
      }
    }
  }

  /** Inserting a row adds exactly its name to the names of the table. */
  lemma NamesAfterInsert(clients: seq<ClientSummary>, c: ClientSummary, j: nat)
    requires j <= |clients|
    ensures forall x :: x in Names(clients[..j] + [c] + clients[j..]) <==> x in Names(clients) || x == c.name
  {
    assert Names(clients[..j] + [c] + clients[j..]) == Names(clients)[..j] + [c.name] + Names(clients)[j..];
    assert Names(clients) == Names(clients)[..j] + Names(clients)[j..];
  }

  /** Booking the first invoice of a client into a new row at position j. */
  lemma BookIntoNewClient(clients: seq<ClientSummary>, seen: seq<Invoice>, r: Invoice, j: nat)
    requires GroupedByClient(seen, clients) && j <= |clients|
    requires forall k :: 0 <= k < j ==> NameBefore(clients[k].name, ClientKey(r))
    requires j < |clients| ==> !NameBefore(clients[j].name, ClientKey(r)) && clients[j].name != ClientKey(r)
    ensures GroupedByClient(seen + [r], clients[..j] + [ClientSummary(ClientKey(r), r.amount, 1, 0.0)] + clients[j..])
  {
    var n := ClientKey(r);
    var c := ClientSummary(n, r.amount, 1, 0.0);
    var out := clients[..j] + [c] + clients[j..];
    NewNameAbsent(clients, n, j);
    InsertNamesAscending(clients, c, j);
    AbsentKey(seen, ClientKey, n);
    ClientSnoc(seen, r);
    NamesAfterInsert(clients, c, j);
    forall k | 0 <= k < |out|
      ensures out[k].total == KeyTotal(seen + [r], ClientKey, out[k].name)
      ensures out[k].count == KeyCount(seen + [r], ClientKey, out[k].name) > 0
    {
      if k < j {
        assert out[k] == clients[k];
      } else if k > j {
        assert out[k] == clients[k - 1];
      }
    }
  }

  /** Books one more invoice into the client table, keeping it in name order. */
  method AddToClient(clients: seq<ClientSummary>, ghost seen: seq<Invoice>, r: Invoice) returns (out: seq<ClientSummary>)
    requires GroupedByClient(seen, clients)
    ensures GroupedByClient(seen + [r], out)
  {
    var n := r.clientName;
    var j := 0;
    while j < |clients| && NameBefore(clients[j].name, n)
      invariant 0 <= j <= |clients|
      invariant forall k :: 0 <= k < j ==> NameBefore(clients[k].name, n)
    {
      j := j + 1;
    }
    if j < |clients| && clients[j].name == n {
      BookIntoClient(clients, seen, r, j);
      out := clients[j := clients[j].(total := clients[j].total + r.amount, count := clients[j].count + 1)];
    } else {
      BookIntoNewClient(clients, seen, r, j);
      out := clients[..j] + [ClientSummary(n, r.amount, 1, 0.0)] + clients[j..];
    }
  }

  /** The two groupby calls and their merge (app.py:270-272), then the average-per-invoice
      column (app.py:275). */
  method GroupByClient(rows: seq<Invoice>) returns (clients: seq<ClientSummary>)
    ensures IsClientTable(rows, clients)
  {
    clients := [];
    for i := 0 to |rows|
      invariant GroupedByClient(rows[..i], clients)
    {
      assert rows[..i + 1] == rows[..i] + [rows[i]];
      clients := AddToClient(clients, rows[..i], rows[i]);
    }
    assert rows[..|rows|] == rows;
    ghost var grouped := clients;
    for k := 0 to |clients|
      invariant |clients| == |grouped|
      invariant forall t :: 0 <= t < |clients| ==> clients[t] == grouped[t].(average := clients[t].average)
      invariant forall t :: 0 <= t < k ==> clients[t].average == Round2(clients[t].total / (clients[t].count as real))
    {
      clients := clients[k := clients[k].(average := Round2(clients[k].total / (clients[k].count as real)))];
    }
    assert Names(clients) == Names(grouped);
  }

  /** Sum of the total column (the top-ten subtotal of app.py:287). */
  function ClientsTotal(clients: seq<ClientSummary>): real
  {
    if clients == [] then 0.0 else ClientsTotal(clients[..|clients| - 1]) + clients[|clients| - 1].total
  }

  /** With no negative client total, the subtotal is non-negative and no client exceeds
      it, so every share lies between 0 and 100. */
  lemma {:induction false} ClientsTotalBounds(clients: seq<ClientSummary>)
    requires forall k :: 0 <= k < |clients| ==> clients[k].total >= 0.0
    ensures ClientsTotal(clients) >= 0.0
    ensures forall k :: 0 <= k < |clients| ==> clients[k].total <= ClientsTotal(clients)
    decreases |clients|
  {
    if clients != [] {
      var init := clients[..|clients| - 1];
      ClientsTotalBounds(init);
      forall k | 0 <= k < |init| ensures init[k].total <= ClientsTotal(init) {
      }
    }
  }

  function ClientsCount(clients: seq<ClientSummary>): nat
  {
    if clients == [] then 0 else ClientsCount(clients[..|clients| - 1]) + clients[|clients| - 1].count
  }

  lemma {:induction false} ClientSumsAreGroupSums(rows: seq<Invoice>, clients: seq<ClientSummary>)
    requires forall k :: 0 <= k < |clients| ==> clients[k].total == KeyTotal(rows, ClientKey, clients[k].name)
    requires forall k :: 0 <= k < |clients| ==> clients[k].count == KeyCount(rows, ClientKey, clients[k].name)
    ensures ClientsTotal(clients) == SumKeyTotals(rows, ClientKey, Names(clients))
    ensures ClientsCount(clients) == SumKeyCounts(rows, ClientKey, Names(clients))
    decreases |clients|
  {
    if clients != [] {
      var init := clients[..|clients| - 1];
      assert Names(clients)[..|clients| - 1] == Names(init);
      ClientSumsAreGroupSums(rows, init);
    }
  }

  /** Per-client totals add up to the table's total, and per-client counts to its
      number of invoices. */
  lemma ClientTotalsConserve(rows: seq<Invoice>, clients: seq<ClientSummary>)
    requires GroupedByClient(rows, clients)
    ensures ClientsTotal(clients) == TotalAmount(rows)
    ensures ClientsCount(clients) == |rows|
  {
    ClientSumsAreGroupSums(rows, clients);
    forall i, j | 0 <= i < j < |clients| ensures Names(clients)[i] != Names(clients)[j] {
      NamesDistinct(clients, i, j);
    }
    SumOverCoveringKeys(rows, ClientKey, Names(clients));
  }

  /** The distinct names of a sequence without repetitions are as many as its elements. */
  lemma {:induction false} DistinctCardinality(ns: seq<string>)
    requires Distinct(ns)
    ensures |set n | n in ns| == |ns|
    decreases |ns|
  {
    if ns != [] {
      var init := ns[..|ns| - 1];
      DistinctPrefix(ns);
      DistinctCardinality(init);
      assert (set n | n in ns) == (set n | n in init) + {ns[|ns| - 1]} by {
        assert ns == init + [ns[|ns| - 1]];
      }
    }
  }

  /** The number of distinct clients (nunique, app.py:263) is the number of rows of the
      client table. */
  lemma ClientCountIsDistinctNames(rows: seq<Invoice>, clients: seq<ClientSummary>)
    requires GroupedByClient(rows, clients)
    ensures |KeysOf(rows, ClientKey)| == |clients|
  {
    forall i, j | 0 <= i < j < |clients| ensures Names(clients)[i] != Names(clients)[j] {
      NamesDistinct(clients, i, j);
    }
    DistinctCardinality(Names(clients));
    assert (set n | n in Names(clients)) == KeysOf(rows, ClientKey);
  }

  /** The invoices of one client, in table order (app.py:330). */
  function InvoicesOf(rows: seq<Invoice>, name: string): (listing: seq<Invoice>)
    ensures |listing| <= |rows|
    ensures forall x :: x in listing <==> x in rows && x.clientName == name
    ensures forall x :: multiset(listing)[x] == if x.clientName == name then multiset(rows)[x] else 0
  {
    if rows == [] then []
    else
      assert rows == rows[..|rows| - 1] + [rows[|rows| - 1]];
      InvoicesOf(rows[..|rows| - 1], name)
         + (if rows[|rows| - 1].clientName == name then [rows[|rows| - 1]] else [])
  }

  /** The summary shown under a client's invoice listing (app.py:338-339) agrees with
      that client's row of the client table. */
  lemma {:induction false} InvoiceListingMatchesGroup(rows: seq<Invoice>, name: string)
    ensures TotalAmount(InvoicesOf(rows, name)) == KeyTotal(rows, ClientKey, name)
    ensures |InvoicesOf(rows, name)| == KeyCount(rows, ClientKey, name)
    decreases |rows|
  {
    if rows != [] {
      var init, last := rows[..|rows| - 1], rows[|rows| - 1];
      InvoiceListingMatchesGroup(init, name);
      TotalAmountAppend(InvoicesOf(init, name), if last.clientName == name then [last] else []);
      assert TotalAmount([last]) == last.amount;
    }
  }

  /** A row of the top-ten ranking: the client's row and its Porcentaje column, absent
      (NaN or infinite in pandas) when the top ten's subtotal is 0. */
  datatype Ranked = Ranked(client: ClientSummary, share: Option<real>)

  /** The client rows of a ranking. */
  function Picked(top: seq<Ranked>): seq<ClientSummary>
  {
    seq(|top|, i requires 0 <= i < |top| => top[i].client)
  }

  /** Sum of the Porcentaje column, absent shares counting as 0. */
  function SharesTotal(top: seq<Ranked>): real
  {
    if top == [] then 0.0
    else SharesTotal(top[..|top| - 1]) + top[|top| - 1].share.GetOr(0.0)
  }

  /** Picks the row with the largest total, the first one among equals. */
  method MaxTotalIndex(rest: seq<ClientSummary>) returns (m: nat)
    requires rest != []
    ensures m < |rest|
    ensures forall k :: 0 <= k < |rest| ==> rest[k].total <= rest[m].total
  {
    m := 0;
    for j := 1 to |rest|
      invariant m < |rest|
      invariant forall k :: 0 <= k < j ==> rest[k].total <= rest[m].total
    {
      if rest[j].total > rest[m].total {
        m := j;
      }
    }
  }

  /** Every row taken is at least as large as every row still left. */
  predicate Dominates(picked: seq<ClientSummary>, rest: seq<ClientSummary>)
  {
    forall i, k :: 0 <= i < |picked| && 0 <= k < |rest| ==> rest[k].total <= picked[i].total
  }

  predicate Descending(picked: seq<ClientSummary>)
  {
    forall i, j :: 0 <= i < j < |picked| ==> picked[i].total >= picked[j].total
  }

  /** Moving the largest remaining row to the end of the taken rows keeps them descending
      and still dominating what is left. */
  lemma SelectStep(picked: seq<ClientSummary>, rest: seq<ClientSummary>, m: nat)
    requires Descending(picked) && Dominates(picked, rest)
    requires m < |rest| && forall k :: 0 <= k < |rest| ==> rest[k].total <= rest[m].total
    ensures Descending(picked + [rest[m]])
    ensures Dominates(picked + [rest[m]], rest[..m] + rest[m + 1..])
    ensures multiset(picked + [rest[m]]) + multiset(rest[..m] + rest[m + 1..]) == multiset(picked) + multiset(rest)
  {
    assert rest == rest[..m] + [rest[m]] + rest[m + 1..];
    var rest' := rest[..m] + rest[m + 1..];
    forall k | 0 <= k < |rest'| ensures rest'[k] == rest[if k < m then k else k + 1] {
    }
  }

  /** A row of the client table that was not taken is no larger than any row taken. */
  lemma LeftOutNotLarger(clients: seq<ClientSummary>, picked: seq<ClientSummary>, rest: seq<ClientSummary>)
    requires multiset(picked) + multiset(rest) == multiset(clients)
    requires Dominates(picked, rest)
    ensures forall q, i :: q in clients && q !in picked && 0 <= i < |picked| ==> q.total <= picked[i].total
  {
    forall q, i | q in clients && q !in picked && 0 <= i < |picked| ensures q.total <= picked[i].total {
      assert q in multiset(clients);
      assert q !in multiset(picked);
      assert q in multiset(rest);
      var k :| 0 <= k < |rest| && rest[k] == q;
    }
  }

  /** sort_values by total, descending, then head(10) (app.py:284): at most ten rows in
      descending order of total, taken from the client table, and no client left out has
      a larger total than any row taken. */
  method TopTen(clients: seq<ClientSummary>) returns (picked: seq<ClientSummary>)
    ensures |picked| == if |clients| < 10 then |clients| else 10
    ensures Descending(picked)
    ensures multiset(picked) <= multiset(clients)
    ensures forall q, i :: q in clients && q !in picked && 0 <= i < |picked| ==> q.total <= picked[i].total
  {
    picked := [];
    var rest := clients;
    while |picked| < 10 && rest != []
      invariant multiset(picked) + multiset(rest) == multiset(clients)
      invariant |picked| <= 10
      invariant Descending(picked)
      invariant Dominates(picked, rest)
      decreases |rest|
    {
      var m := MaxTotalIndex(rest);
      SelectStep(picked, rest, m);
      picked, rest := picked + [rest[m]], rest[..m] + rest[m + 1..];
    }
    assert |picked| + |rest| == |clients| by {
      assert |multiset(picked) + multiset(rest)| == |multiset(clients)|;
    }
    LeftOutNotLarger(clients, picked, rest);
  }

  /** Adds the Porcentaje column: each row's total over the subtotal of all rows, in percent. */
  method AddShares(picked: seq<ClientSummary>) returns (top: seq<Ranked>)
    ensures Picked(top) == picked
    ensures ClientsTotal(picked) != 0.0 ==>
              forall i :: 0 <= i < |top| ==> top[i].share == Some(picked[i].total / ClientsTotal(picked) * 100.0)
    ensures ClientsTotal(picked) == 0.0 ==> forall i :: 0 <= i < |top| ==> top[i].share.None?
  {
    var subtotal := ClientsTotal(picked);
    top := [];
    for i := 0 to |picked|
      invariant |top| == i
      invariant forall k :: 0 <= k < i ==> top[k].client == picked[k]
      invariant forall k :: 0 <= k < i ==>
                  top[k].share == if subtotal != 0.0 then Some(picked[k].total / subtotal * 100.0) else None
    {
      var share := if subtotal != 0.0 then Some(picked[i].total / subtotal * 100.0) else None;
      top := top + [Ranked(picked[i], share)];
    }
    assert Picked(top) == picked;
  }

  /** The top ten with each row's share of the top ten's subtotal, in percent (app.py:284-288). */
  method TopClients(clients: seq<ClientSummary>) returns (top: seq<Ranked>)
    ensures |top| == if |clients| < 10 then |clients| else 10
    ensures Descending(Picked(top))
    ensures multiset(Picked(top)) <= multiset(clients)
    ensures forall q, i :: q in clients && q !in Picked(top) && 0 <= i < |top| ==> q.total <= Picked(top)[i].total
    ensures ClientsTotal(Picked(top)) != 0.0 ==>
              forall i :: 0 <= i < |top| ==> top[i].share == Some(top[i].client.total / ClientsTotal(Picked(top)) * 100.0)
    ensures ClientsTotal(Picked(top)) == 0.0 ==> forall i :: 0 <= i < |top| ==> top[i].share.None?
  {
    var picked := TopTen(clients);
    top := AddShares(picked);
  }

  lemma {:induction false} SharesScale(top: seq<Ranked>, s: real)
    requires s != 0.0
    requires forall i :: 0 <= i < |top| ==> top[i].share == Some(top[i].client.total / s * 100.0)
    ensures SharesTotal(top) == ClientsTotal(Picked(top)) / s * 100.0
    decreases |top|
  {
    if top != [] {
      var init, last := top[..|top| - 1], top[|top| - 1];
      SharesScale(init, s);
      assert Picked(top)[..|top| - 1] == Picked(init);
      var a, b := ClientsTotal(Picked(init)), last.client.total;
      assert ClientsTotal(Picked(top)) == a + b;
      assert SharesTotal(top) == a / s * 100.0 + b / s * 100.0;
      ShareSplit(a, b, s);
    }
  }

  lemma ShareSplit(a: real, b: real, s: real)
    requires s != 0.0
    ensures a / s * 100.0 + b / s * 100.0 == (a + b) / s * 100.0
  {
  }

  /** The shares of the top ten add up to 100 % whenever their subtotal is not 0. */
  lemma SharesSumToHundred(top: seq<Ranked>)
    requires ClientsTotal(Picked(top)) != 0.0
    requires forall i :: 0 <= i < |top| ==> top[i].share == Some(top[i].client.total / ClientsTotal(Picked(top)) * 100.0)
    ensures SharesTotal(top) == 100.0
  {
    SharesScale(top, ClientsTotal(Picked(top)));
    SelfRatio(ClientsTotal(Picked(top)));
  }

  lemma SelfRatio(s: real)
    requires s != 0.0
    ensures s / s * 100.0 == 100.0
  {
  }
}
