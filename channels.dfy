/**
 * The channel catalog and the favourites stored in `localStorage` under `lofiAppFavorites`.
 * Reading the favourites never writes; toggling is a read-modify-write of the stored list.
 */
module Channels {
  import opened Wrappers
  import opened Seqs
  import opened Types
  import opened Storage

  /** `channelsList`: the shipped catalog, in display order. */
  const Catalog: seq<Channel> := [
    Channel("M-4zE2GG87w", "Spring Lofi",
            "https://img.icons8.com/ios-filled/50/spring.png"),
    Channel("r3JG5gBLbpA", "Lost in Japan",
            "https://img.icons8.com/material-outlined/24/city.png"),
    Channel("vrB9wC6quaU", "Lofi on a Calm Night",
            "https://img.icons8.com/ios/50/balcony.png"),
    Channel("92PvEVG0sKI", "Cozy Lofi",
            "https://img.icons8.com/ios-glyphs/30/city-buildings.png"),
    Channel("hB2LatX6NLg", "Shibuya Nights",
            "https://img.icons8.com/glyph-neue/64/new-york.png"),
    Channel("vYIYIVmOo3Q", "Rainy Rooftop",
            "https://img.icons8.com/ios-glyphs/30/rain--v1.png"),
    Channel("CX9_h23icoM", "Lofi on the Radio",
            "https://img.icons8.com/ios-filled/50/radio.png"),
    Channel("yf5NOyy1SXU", "Room with City View",
            "https://img.icons8.com/ios-filled/50/empty-bed.png"),
    Channel("IOOXppTp5co", "Bear Footprint",
            "https://img.icons8.com/ios-filled/50/bear-footprint.png"),
    Channel("Fs-RjtIDvbw", "Coffee Shop",
            "https://img.icons8.com/material-rounded/24/espresso-cup--v1.png"),
    Channel("tVHNkTBvCtI", "Hip Hop Lofi",
            "https://img.icons8.com/ios/50/rap.png"),
    Channel("mF3m7Jza2uc", "Lofi Beats",
            "https://img.icons8.com/ios-filled/50/musical-notes.png"),
    Channel("JQtM2tyWAOQ", "Chinese Lofi",
            "https://img.icons8.com/external-jumpicon-glyph-ayub-irawan/32/external-_39-chinese-new-year-jumpicon-(glyph)-jumpicon-glyph-ayub-irawan.png"),
    Channel("93AApJk314Q", "Gas Station",
            "https://img.icons8.com/ios-filled/50/gas-station.png"),
    Channel("rPjez8z61rI", "TV Lofi",
            "https://img.icons8.com/ios-filled/50/tv.png"),
    Channel("techmgGVOhk", "Frog Lofi",
            "https://img.icons8.com/ios-filled/50/frog.png"),
    Channel("UedTcufyrHc", "Floor Lofi",
            "https://img.icons8.com/external-glyph-andi-nur-abdillah/64/external-Floor-outline-(glyph)-glyph-andi-nur-abdillah.png"),
    Channel("IBKIzCxy55o", "Sofa Lofi",
            "https://img.icons8.com/material-rounded/24/sofa.png"),
    Channel("m0hD2iFaSW4", "Wizard Lofi 1",
            "https://img.icons8.com/ios/50/gandalf.png"),
    Channel("Mfq3_nvFiFw", "Wizard Lofi 2",
            "https://img.icons8.com/ios/50/gandalf.png"),
    Channel("UqS3zt4crtM", "Bluey Lofi",
            "https://img.icons8.com/ios-filled/50/bluey.png"),
    Channel("9IOmDeoHSo8", "Fantasy Lofi",
            "https://img.icons8.com/ios-glyphs/30/fantasy--v1.png"),
    Channel("7XrwdXTy-p8", "Adventure Time",
            "https://img.icons8.com/ios/50/jake.png"),
    Channel("p_oz1qIdJlI", "Rainy Lofi",
            "https://img.icons8.com/ios-filled/50/rain--v1.png"),
    Channel("dk6fPqa-uZQ", "Bible Lofi",
            "https://img.icons8.com/ios-filled/50/holy-bible.png"),
    Channel("T8Cq3AXBEpM", "Afro Lofi",
            "https://img.icons8.com/ios-glyphs/30/afro-pick.png")
  ]

  /** The catalog has 26 channels and no two share an id. */
  lemma CatalogFacts()
    ensures |Catalog| == 26
    ensures forall i, j :: 0 <= i < j < |Catalog| ==> Catalog[i].id != Catalog[j].id
  {
  }

  const FavoritesKey := "lofiAppFavorites"

  function HasId(id: string): FavoriteChannel -> bool {
    (f: FavoriteChannel) => f.id == id
  }

  function OtherId(id: string): FavoriteChannel -> bool {
    (f: FavoriteChannel) => f.id != id
  }

  /**
   * `getFavoriteChannels`: the stored list, or the empty list when there is no window or
   * nothing (or the empty string) is stored; `None` when parsing the stored text throws.
   */
  function GetFavoriteChannels(store: LocalStorage): (r: Option<seq<FavoriteChannel>>)
    reads store
    ensures !store.available ==> r == Some([])
    ensures store.available && !Truthy(store.Get(FavoritesKey)) ==> r == Some([])
    ensures store.available && FavoritesKey in store.items && store.items[FavoritesKey].FavoritesValue?
      ==> r == Some(store.items[FavoritesKey].favorites)
    ensures store.available && Truthy(store.Get(FavoritesKey)) && !store.items[FavoritesKey].FavoritesValue?
      ==> r == None
  {
    if !store.available then Some([])
    else
      var stored := store.Get(FavoritesKey);
      if !Truthy(stored) then Some([])
      else if stored.value.FavoritesValue? then Some(stored.value.favorites)
      else None
  }

  /** Whether some entry of the favourites list has the channel's id. */
  function IsFavorite(favorites: seq<FavoriteChannel>, id: string): bool {
    Any(favorites, HasId(id))
  }

  /** The list `toggleFavorite` writes back: without every entry for `id`, or with one appended. */
  function Toggled(favorites: seq<FavoriteChannel>, id: string): seq<FavoriteChannel> {
    if IsFavorite(favorites, id) then Keep(favorites, OtherId(id)) else favorites + [FavoriteChannel(id)]
  }

  /** `isChannelFavorite`: `None` when reading the favourites throws. */
  function IsChannelFavorite(store: LocalStorage, id: string): (r: Option<bool>)
    reads store
    ensures r.Some? <==> GetFavoriteChannels(store).Some?
    ensures r.Some? ==> r.value == IsFavorite(GetFavoriteChannels(store).value, id)
  {
    match GetFavoriteChannels(store)
    case None => None
    case Some(favorites) => Some(IsFavorite(favorites, id))
  }

  /** `saveFavoriteChannels`; `ok` is false when `setItem` throws. Without a window nothing happens. */
  method SaveFavoriteChannels(store: LocalStorage, favorites: seq<FavoriteChannel>) returns (ok: bool)
    modifies store
    ensures ok <==> !store.available || FavoritesKey !in store.rejected
    ensures store.items == if store.available && ok then old(store.items)[FavoritesKey := FavoritesValue(favorites)]
                           else old(store.items)
  {
    if !store.available {
      ok := true;
      return;
    }
    ok := store.SetItem(FavoritesKey, FavoritesValue(favorites));
  }

  /**
   * `toggleFavorite`: returns whether the channel is a favourite now; `None` when reading or
   * writing the stored list throws.
   */
  method ToggleFavorite(store: LocalStorage, id: string) returns (r: Option<bool>)
    modifies store
    ensures var before := old(GetFavoriteChannels(store));
      match before
      case None => r == None && store.items == old(store.items)
      case Some(favorites) =>
        && (r.Some? <==> !store.available || FavoritesKey !in store.rejected)
        && (r.Some? ==> r.value == !IsFavorite(favorites, id))
        && store.items == if store.available && r.Some? then old(store.items)[FavoritesKey := FavoritesValue(Toggled(favorites, id))]
                          else old(store.items)
    ensures r.Some? && store.available ==> IsChannelFavorite(store, id) == r
  {
    var favorites := GetFavoriteChannels(store);
    if favorites.None? {
      return None;
    }
    var isFavorite := Any(favorites.value, HasId(id));
    var ok;
    if isFavorite {
      ok := SaveFavoriteChannels(store, Keep(favorites.value, OtherId(id)));
    } else {
      ok := SaveFavoriteChannels(store, favorites.value + [FavoriteChannel(id)]);
    }
    if !ok {
      return None;
    }
    r := Some(!isFavorite);
    ToggleFlips(favorites.value, id);
  }

  /** After a toggle the id is a favourite exactly when it was not before. */
  lemma ToggleFlips(favorites: seq<FavoriteChannel>, id: string)
    ensures IsFavorite(Toggled(favorites, id), id) == !IsFavorite(favorites, id)
  {
    var t := Toggled(favorites, id);
    if IsFavorite(favorites, id) {
      forall i | 0 <= i < |t| ensures t[i].id != id {
        assert t[i] in t;
      }
    } else {
      assert t[|t| - 1] == FavoriteChannel(id);
    }
  }

  /** Toggling an id that is not a favourite appends exactly one entry for it at the end. */
  lemma ToggleAbsentAppends(favorites: seq<FavoriteChannel>, id: string)
    requires !IsFavorite(favorites, id)
    ensures Toggled(favorites, id) == favorites + [FavoriteChannel(id)]
  {
  }

  /** Toggling a favourite removes every entry with its id. */
  lemma TogglePresentRemoves(favorites: seq<FavoriteChannel>, id: string)
    requires IsFavorite(favorites, id)
    ensures forall f :: f in Toggled(favorites, id) <==> f in favorites && f.id != id
  {
    forall f ensures f in Toggled(favorites, id) <==> f in favorites && f.id != id {
      KeepMembership(favorites, OtherId(id), f);
    }
  }

  /** Entries for other ids are the same, in the same order, before and after a toggle. */
  lemma ToggleKeepsOthers(favorites: seq<FavoriteChannel>, id: string)
    ensures Keep(Toggled(favorites, id), OtherId(id)) == Keep(favorites, OtherId(id))
  {
    if IsFavorite(favorites, id) {
      KeepIdempotent(favorites, OtherId(id));
    } else {
      KeepAppend(favorites, [FavoriteChannel(id)], OtherId(id));
      assert Keep([FavoriteChannel(id)], OtherId(id)) == [];
    }
  }

  /** Toggling an id that is not a favourite twice gives back the original list. */
  lemma ToggleTwiceRestores(favorites: seq<FavoriteChannel>, id: string)
    requires !IsFavorite(favorites, id)
    ensures Toggled(Toggled(favorites, id), id) == favorites
  {
    var once := favorites + [FavoriteChannel(id)];
    assert once[|once| - 1] == FavoriteChannel(id);
    assert IsFavorite(once, id);
    KeepAppend(favorites, [FavoriteChannel(id)], OtherId(id));
    assert Keep([FavoriteChannel(id)], OtherId(id)) == [];
    KeepAll(favorites, OtherId(id));
  }
}
