/**
 * The admin dashboard: the four counters built from the three listing
 * routes, and logging out, which clears the sign-in flag in the browser's
 * local storage.
 */
module AdminDashboard {
  import opened Wrappers
  import opened Http
  import opened Lists
  import opened EventModel
  import opened SongModel
  import opened EventsRoute
  import opened BookingModel
  import opened AdminBookingsPage

  const AuthKey: string := "adminAuth"
  const LoginPath: string := "/admin/login"

  /** `localStorage.getItem('adminAuth')` is truthy: present and not empty. */
  predicate SignedIn(storage: map<string, string>) {
    AuthKey in storage && storage[AuthKey] != ""
  }

  datatype Stats = Stats(totalEvents: nat, totalSongs: nat, totalBookings: nat, pendingBookings: nat)

  const ZeroStats := Stats(0, 0, 0, 0)

  /** A reply's list length, or 0 when the route reported failure. */
  function TotalOf<T>(reply: Reply<seq<T>>): (n: nat)
    ensures reply.Succeeded? ==> n == |reply.data|
    ensures !reply.Succeeded? ==> n == 0
  {
    if reply.Succeeded? then |reply.data| else 0
  }

  /** The counters from three replies none of which threw. */
  function StatsFrom(events: Reply<seq<Event>>, songs: Reply<seq<Song>>, bookings: Reply<seq<BookingView>>): (s: Stats)
    ensures s.totalEvents == TotalOf(events) && s.totalSongs == TotalOf(songs)
    ensures s.totalBookings == TotalOf(bookings)
    ensures bookings.Succeeded? ==> s.pendingBookings == |Filter(bookings.data, HasStatus("pending"))|
    ensures !bookings.Succeeded? ==> s.pendingBookings == 0
    ensures s.pendingBookings <= s.totalBookings
  {
    Stats(TotalOf(events), TotalOf(songs), TotalOf(bookings),
          if bookings.Succeeded? then |Filter(bookings.data, HasStatus("pending"))| else 0)
  }

  /** The pending counter agrees with the 'pending' button on the bookings page. */
  lemma PendingMatchesBookingsPage(events: Reply<seq<Event>>, songs: Reply<seq<Song>>, bookings: seq<BookingView>)
    ensures StatsFrom(events, songs, Succeeded(bookings)).pendingBookings == StatusCount(bookings, Pending)
  {
    assert StatusName(Pending) == "pending";
  }

  /** The events counter counts upcoming events only, since that is all the events route lists. */
  lemma EventsCounterCountsUpcoming(docs: seq<Event>, now: int, songs: Reply<seq<Song>>, bookings: Reply<seq<BookingView>>)
    ensures StatsFrom(Succeeded(Upcoming(docs, now)), songs, bookings).totalEvents == |Filter(docs, NotBefore(now))|
  {
  }

  /** The dashboard's state; `location` is where the router was last sent. */
  class Dashboard {
    var stats: Stats
    var loading: bool
    var storage: map<string, string>
    var location: Option<string>

    constructor(initialStorage: map<string, string>)
      ensures stats == ZeroStats && loading && storage == initialStorage && location == None
    {
      stats := ZeroStats;
      loading := true;
      storage := initialStorage;
      location := None;
    }

    /**
     * `fetchStats`, given the three replies. When any `fetch` or `json()`
     * threw, `setStats` is never reached and the counters stay as they were.
     */
    method FetchStats(events: Reply<seq<Event>>, songs: Reply<seq<Song>>, bookings: Reply<seq<BookingView>>)
      modifies this
      ensures (events.Threw? || songs.Threw? || bookings.Threw?) ==> stats == old(stats)
      ensures !(events.Threw? || songs.Threw? || bookings.Threw?) ==> stats == StatsFrom(events, songs, bookings)
      ensures !loading && storage == old(storage) && location == old(location)
    {
      if !(events.Threw? || songs.Threw? || bookings.Threw?) {
        var pending: nat := 0;
        if bookings.Succeeded? {
          pending := |Filter(bookings.data, HasStatus("pending"))|;
        }
        stats := Stats(TotalOf(events), TotalOf(songs), TotalOf(bookings), pending);
      }
      loading := false;
    }

    /** `handleLogout`. */
    method Logout()
      modifies this
      ensures storage == old(storage) - {AuthKey}
      ensures !SignedIn(storage)
      ensures forall k :: k in old(storage) && k != AuthKey ==> k in storage && storage[k] == old(storage)[k]
      ensures location == Some(LoginPath)
      ensures stats == old(stats) && loading == old(loading)
    {
      storage := storage - {AuthKey};
      location := Some(LoginPath);
    }
  }
}
