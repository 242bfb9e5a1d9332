/**
 The library keeps one array of cards for both of its halves: the file descriptor that the start-up
 loop stored under a card number is the one the register calls with that number use.
 */
module CardFiles {
  import Discovery
  import opened Registers

  /** Each file leads to a card whose default BAR is mapped, and no two lead to the same region. */
  ghost predicate GoodFiles(files: map<int, Card>) {
    && (forall fd :: fd in files ==> files[fd].Ready())
    && (forall fd, other :: fd in files && other in files && fd != other ==>
          files[fd].DefaultMem() != files[other].DefaultMem())
  }

  /** Every open gave its own file descriptor. */
  ghost predicate OwnFds(kept: seq<Discovery.Entry>) {
    forall i, j :: 0 <= i < j < |kept| ==> kept[i].fd != kept[j].fd
  }

  /**
   The register half over what the start-up loop found: card number k is the card behind the file
   of the k-th entry kept, the one that QueryCardInfo describes under that number.
   */
  method Connect(found: Discovery.Library, files: map<int, Card>) returns (lib: Library)
    requires found.Valid() && GoodFiles(files)
    requires forall k :: 0 <= k < found.numCards ==> found.kept[k].fd in files
    ensures |lib.cards| == found.numCards
    ensures forall k :: 0 <= k < |lib.cards| ==> lib.cards[k] == files[found.kept[k].fd]
    ensures lib.Valid() <==> OwnFds(found.kept)
  {
    var cards: seq<Card> := [];
    for k := 0 to found.numCards
      invariant |cards| == k
      invariant forall j :: 0 <= j < k ==> cards[j] == files[found.kept[j].fd]
    {
      cards := cards + [files[found.cards[k].fd]];
    }
    lib := new Library(cards);
    if !OwnFds(found.kept) {
      var i, j :| 0 <= i < j < |found.kept| && found.kept[i].fd == found.kept[j].fd;
      assert lib.cards[i] == lib.cards[j];
    }
  }
}
