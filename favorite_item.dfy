/** A favourite room as the favourites page shows it: its live status, the flags derived from it,
    and the property-change notifications the page listens to. */
module FavoriteItem {

  /** The live status of a room. */
  datatype LiveStatusType = Offline | Live | Replay

  /** The enum's numeric values. */
  function StatusValue(s: LiveStatusType): (v: int)
    ensures 0 <= v <= 2
  {
    match s
    case Offline => 0
    case Live => 1
    case Replay => 2
  }

  lemma StatusValuesDistinct(a: LiveStatusType, b: LiveStatusType)
    ensures StatusValue(a) == StatusValue(b) <==> a == b
  {
  }

  /** The notifications raised by one assignment of the status, in order. */
  const StatusNotifications: seq<string> := ["LiveStatus", "IsLive", "IsReplay", "IsLiveOrReplay"]

  predicate IsLive(s: LiveStatusType) {
    s == Live
  }

  predicate IsReplay(s: LiveStatusType) {
    s == Replay
  }

  predicate IsLiveOrReplay(s: LiveStatusType) {
    s == Live || s == Replay
  }

  /** The two flags exclude each other, their disjunction is the combined flag, and an offline
      room has none of them. */
  lemma FlagsAgree(s: LiveStatusType)
    ensures !(IsLive(s) && IsReplay(s))
    ensures IsLiveOrReplay(s) <==> IsLive(s) || IsReplay(s)
    ensures !IsLiveOrReplay(s) <==> s == Offline
  {
  }

  class Favorite {
    var id: int
    var roomId: string
    var userName: string
    var photo: string
    var siteName: string
    var liveStatus: LiveStatusType
    /** Every property-change notification raised so far, oldest first. */
    var notified: seq<string>

    constructor()
      ensures liveStatus == Offline && notified == []
      ensures id == 0 && roomId == "" && userName == "" && photo == "" && siteName == ""
    {
      id := 0;
      roomId := "";
      userName := "";
      photo := "";
      siteName := "";
      liveStatus := Offline;
      notified := [];
    }

    /** Stores the status, then announces it and the three flags that depend on it, also when
        the value did not change. */
    method SetLiveStatus(value: LiveStatusType)
      modifies this
      ensures liveStatus == value
      ensures notified == old(notified) + StatusNotifications
      ensures id == old(id) && roomId == old(roomId) && userName == old(userName)
      ensures photo == old(photo) && siteName == old(siteName)
    {
      liveStatus := value;
      notified := notified + ["LiveStatus"];
      notified := notified + ["IsLive"];
      notified := notified + ["IsReplay"];
      notified := notified + ["IsLiveOrReplay"];
    }
  }
}
