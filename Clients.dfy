/** The Clients panel of components/Clients.tsx: the case-insensitive search
    over a client's name or e-mail address, and the status badge. */
module Clients {
  import opened Seqs
  import opened Text
  import opened Badges

  datatype ClientStatus = Active | Inactive

  datatype Client = Client(
    id: string, name: string, email: string, phone: string,
    status: ClientStatus, cases: nat, lastContact: string)

  /** The search test of `filteredClients`: the lower-cased term occurs in the
      lower-cased name or in the lower-cased e-mail address. */
  predicate MatchesSearch(client: Client, term: string)
    ensures MatchesSearch(client, term) <==>
      (exists k: nat :: OccursAt(Lower(client.name), Lower(term), k))
      || (exists k: nat :: OccursAt(Lower(client.email), Lower(term), k))
  {
    Contains(Lower(client.name), Lower(term)) || Contains(Lower(client.email), Lower(term))
  }

  /** `filteredClients`. */
  function FilteredClients(clients: seq<Client>, term: string): (r: seq<Client>)
    ensures |r| <= |clients|
  {
    Filter(clients, (c: Client) => MatchesSearch(c, term))
  }

  /** The rows shown are an order-preserving subsequence of the list, and a
      client is shown exactly when the term occurs, ignoring letter case, in
      its name or its e-mail address. */
  lemma SearchSelects(clients: seq<Client>, term: string)
    ensures var r := FilteredClients(clients, term);
      && IsSubsequence(r, clients)
      && (forall i :: 0 <= i < |r| ==>
            r[i] in clients
            && ((exists k: nat :: OccursAt(Lower(r[i].name), Lower(term), k))
                || (exists k: nat :: OccursAt(Lower(r[i].email), Lower(term), k))))
      && (forall i :: 0 <= i < |clients| ==> (clients[i] in r <==> MatchesSearch(clients[i], term)))
    ensures var r := FilteredClients(clients, term);
      var idx := Positions(clients, (c: Client) => MatchesSearch(c, term), |clients|);
      && |r| == |idx|
      && (forall k :: 0 <= k < |idx| ==> r[k] == clients[idx[k]])
      && (forall i :: 0 <= i < |clients| ==> (i in idx <==> MatchesSearch(clients[i], term)))
  {
    var p := (c: Client) => MatchesSearch(c, term);
    FilterIsSubsequence(clients, p);
    FilterMembers(clients, p);
    FilterSelectsPositions(clients, p);
    var r := FilteredClients(clients, term);
    forall i | 0 <= i < |r|
      ensures (exists k: nat :: OccursAt(Lower(r[i].name), Lower(term), k))
        || (exists k: nat :: OccursAt(Lower(r[i].email), Lower(term), k))
    {
      assert MatchesSearch(r[i], term);
    }
  }

  /** The initial, empty search term keeps every client. */
  lemma EmptyTermKeepsAll(clients: seq<Client>)
    ensures FilteredClients(clients, "") == clients
  {
    forall i | 0 <= i < |clients|
      ensures MatchesSearch(clients[i], "")
    {
      ContainsEmpty(Lower(clients[i].name));
    }
    FilterKeepsAll(clients, (c: Client) => MatchesSearch(c, ""));
  }

  /** Two terms that agree once lower-cased select the same clients. */
  lemma CaseInsensitive(clients: seq<Client>, term: string, term': string)
    requires Lower(term) == Lower(term')
    ensures FilteredClients(clients, term) == FilteredClients(clients, term')
  {
    FilterCongruent(clients, (c: Client) => MatchesSearch(c, term), (c: Client) => MatchesSearch(c, term'));
  }

  /** Typing the term in capitals (or in lower case) changes nothing. */
  lemma LetterCaseOfTermIrrelevant(clients: seq<Client>, term: string)
    ensures FilteredClients(clients, Upper(term)) == FilteredClients(clients, term)
    ensures FilteredClients(clients, Lower(term)) == FilteredClients(clients, term)
  {
    LowerOfUpper(term);
    CaseInsensitive(clients, Upper(term), term);
    LowerIdempotent(term);
    CaseInsensitive(clients, Lower(term), term);
  }

  /** Searching the shown rows again with the same term shows the same rows. */
  lemma SearchIdempotent(clients: seq<Client>, term: string)
    ensures FilteredClients(FilteredClients(clients, term), term) == FilteredClients(clients, term)
  {
    FilterIdempotent(clients, (c: Client) => MatchesSearch(c, term));
  }

  /** The status badge: green for an active client, gray otherwise. */
  function StatusColour(status: ClientStatus): (c: Colour)
    ensures c == Green <==> status == Active
    ensures c == Gray <==> status == Inactive
  {
    match status
    case Active => Green
    case Inactive => Gray
  }

  /** `name.charAt(0)`, shown in the avatar circle: the first character, or
      nothing for an empty name. */
  function Initial(name: string): (r: string)
    ensures |name| > 0 ==> r == [name[0]]
    ensures |name| == 0 ==> r == ""
  {
    name[..if |name| > 0 then 1 else 0]
  }

  /** The list seeded into the panel. */
  const SeedClients: seq<Client> := [
    Client("1", "Johnson Enterprises", "contact@johnsonent.com", "(555) 123-4567", Active, 3, "2023-07-15"),
    Client("2", "Smith & Associates", "legal@smith.com", "(555) 234-5678", Active, 5, "2023-07-18"),
    Client("3", "Davis Foundation", "info@davisfoundation.org", "(555) 345-6789", Inactive, 2, "2023-06-10"),
    Client("4", "Thompson Manufacturing", "legal@thompsonmfg.com", "(555) 456-7890", Active, 1, "2023-07-20"),
    Client("5", "Williams Properties", "admin@williamsprops.com", "(555) 567-8901", Active, 4, "2023-07-19")
  ]

  /** The state of the panel: the client list (never changed) and the term
      typed in the search box. */
  class ClientsPanel {
    const clients: seq<Client>
    var searchTerm: string

    constructor ()
      ensures clients == SeedClients && searchTerm == ""
      ensures Shown() == SeedClients
    {
      clients := SeedClients;
      searchTerm := "";
      new;
      EmptyTermKeepsAll(SeedClients);
    }

    /** The rows of the table. */
    function Shown(): seq<Client>
      reads this
    {
      FilteredClients(clients, searchTerm)
    }

    /** The search box changed: `setSearchTerm(e.target.value)`. */
    method SetSearchTerm(value: string)
      modifies this
      ensures searchTerm == value && Shown() == FilteredClients(clients, value)
    {
      searchTerm := value;
    }
  }
}
