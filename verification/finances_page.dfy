/**
 * The Finances page: the loaded transaction list, the search box over it, and the list updates
 * after a create, an edit or a delete.
 */
module FinancesPage {
  import opened Wrappers
  import opened Records
  import opened Lists
  import opened Backend
  import opened PageState
  import Text

  function IdOf(t: Transaction): nat { t.Id }

  /** The search callback: description, category, farm name or type contains the term, ignoring
      case. */
  predicate Matches(t: Transaction, term: string) {
    Text.IncludesIgnoringCase(t.description, term) || Text.IncludesIgnoringCase(t.category, term) ||
    Text.IncludesIgnoringCase(t.farmName, term) || Text.IncludesIgnoringCase(t.kind, term)
  }

  function Matching(term: string): Transaction -> bool {
    (t: Transaction) => Matches(t, term)
  }

  /** `filteredTransactions`: the search runs on every term, the empty one included. */
  function Visible(transactions: seq<Transaction>, term: string): (r: seq<Transaction>)
    ensures |r| <= |transactions|
  {
    Filter(transactions, Matching(term))
  }

  /** The shown transactions are the matching ones, in their order, each as often as it occurs. */
  lemma VisibleMembers(transactions: seq<Transaction>, term: string)
    ensures SubseqOf(Visible(transactions, term), transactions)
    ensures forall t :: t in Visible(transactions, term) <==> t in transactions && Matches(t, term)
    ensures |Visible(transactions, term)| == CountWhere(transactions, Matching(term))
  {
    FilterCount(transactions, Matching(term));
    FilterIsSubseq(transactions, Matching(term));
    FilterMembers(transactions, Matching(term));
  }

  /** An empty search term shows every transaction. */
  lemma EmptySearchKeepsAll(transactions: seq<Transaction>)
    ensures Visible(transactions, "") == transactions
  {
    forall t | t in transactions ensures Matching("")(t) {
      Text.EmptyTermMatches(t.description);
    }
    FilterAll(transactions, Matching(""));
  }

  /** Typing "income" or "expense" shows every transaction of that type. */
  lemma TypeSearchFindsType(transactions: seq<Transaction>, t: Transaction)
    requires t in transactions
    ensures t in Visible(transactions, t.kind)
  {
    assert Text.OccursAt(Text.Lower(t.kind), Text.Lower(t.kind), 0);
    VisibleMembers(transactions, t.kind);
  }

  class Page {
    var transactions: seq<Transaction>
    var farms: seq<Farm>
    var searchTerm: string

    constructor()
      ensures transactions == [] && farms == [] && searchTerm == ""
    {
      transactions, farms, searchTerm := [], [], "";
    }

    /** `loadData`: the lists `transactionService.getAll()` and `farmService.getAll()` answered. */
    method Load(loadedTransactions: seq<Transaction>, loadedFarms: seq<Farm>)
      modifies this
      ensures transactions == loadedTransactions && farms == loadedFarms && searchTerm == old(searchTerm)
    {
      transactions, farms := loadedTransactions, loadedFarms;
    }

    method Search(term: string)
      modifies this
      ensures searchTerm == term && transactions == old(transactions) && farms == old(farms)
    {
      searchTerm := term;
    }

    /** `handleAddTransaction`, given what `transactionService.create` answered. */
    method AddTransaction(created: Result<Transaction, Failure>)
      modifies this
      ensures created.Ok? ==> transactions == old(transactions) + [created.value]
      ensures created.Err? ==> transactions == old(transactions)
      ensures farms == old(farms) && searchTerm == old(searchTerm)
    {
      if created.Ok? {
        transactions := transactions + [created.value];
      }
    }

    /** `handleEditTransaction`, given what `transactionService.update` answered: the entries with
        the updated transaction's `Id` become it. */
    method EditTransaction(updated: Result<Transaction, Failure>)
      modifies this
      ensures updated.Ok? ==> transactions == Replaced(old(transactions), IdOf, updated.value.Id, updated.value)
      ensures updated.Err? ==> transactions == old(transactions)
      ensures farms == old(farms) && searchTerm == old(searchTerm)
    {
      if updated.Ok? {
        transactions := Replaced(transactions, IdOf, updated.value.Id, updated.value);
      }
    }

    /** `handleDeleteTransaction`: nothing happens unless the user confirms; then, once
        `transactionService.delete` resolves, the entries with that `Id` are removed. */
    method DeleteTransaction(id: nat, confirmed: bool, deleted: Result<bool, Failure>)
      modifies this
      ensures confirmed && deleted.Ok? ==> transactions == Removed(old(transactions), IdOf, id)
      ensures !(confirmed && deleted.Ok?) ==> transactions == old(transactions)
      ensures farms == old(farms) && searchTerm == old(searchTerm)
    {
      if confirmed && deleted.Ok? {
        transactions := Removed(transactions, IdOf, id);
      }
    }

    /** `filteredTransactions` on the current state. */
    function Shown(): seq<Transaction>
      reads this
    {
      Visible(transactions, searchTerm)
    }
  }
}
