/** The tea catalogue of `tea/views.py`: which teas are published, what the
    list and detail pages annotate them with, the favourite toggles, and
    `TeaReview.get_star_display`. */
module Teas {
  import opened Base
  import opened Orders

  /** A `Tea` row: only its publication time matters here. */
  datatype Tea = Tea(publishedAt: Option<Time>)

  /** `published_at__isnull=False, published_at__lt=now` */
  predicate IsPublished(tea: Tea, now: Time) {
    tea.publishedAt.Some? && tea.publishedAt.value < now
  }

  /** `tea.products.filter(is_available=True)` */
  function AvailableProducts(products: map<ProductId, Product>, tea: TeaId): set<ProductId> {
    set p | p in products && products[p].tea == tea && products[p].isAvailable
  }

  /** The users in the `favorite_teas` rows of `tea`; the rows are a set of
      pairs because of `unique_together = ("user", "tea")`. */
  function Favoriters(favorites: set<(UserId, TeaId)>, tea: TeaId): set<UserId> {
    set f | f in favorites && f.1 == tea :: f.0
  }

  /** `tea.favorited_by.count()` */
  function FavoritesCount(favorites: set<(UserId, TeaId)>, tea: TeaId): nat {
    |Favoriters(favorites, tea)|
  }

  /** The `is_favorited` annotation: False for an anonymous visitor, else
      whether the pair exists. */
  function IsFavorited(favorites: set<(UserId, TeaId)>, viewer: Option<UserId>, tea: TeaId): (r: bool)
    ensures viewer.None? ==> !r
    ensures viewer.Some? ==> (r <==> (viewer.value, tea) in favorites)
  {
    match viewer
    case None => false
    case Some(u) => (u, tea) in favorites
  }

  /** One entry of the list page. */
  datatype ListEntry = ListEntry(favoritesCount: nat, isFavorited: bool)

  /** The teas `published_tea_list` shows: published before `now` with at
      least one available product. */
  function ListedTeas(teas: map<TeaId, Tea>, products: map<ProductId, Product>, now: Time): (r: set<TeaId>)
    ensures forall t :: t in r <==> t in teas && IsPublished(teas[t], now) && AvailableProducts(products, t) != {}
  {
    set t | t in teas && IsPublished(teas[t], now) && AvailableProducts(products, t) != {}
  }

  /** The rows the list query counts for `tea`: its `products__is_available`
      join, which the count over `favorited_by` runs over, pairs every
      available product with every favourite. */
  function ListJoinRows(products: map<ProductId, Product>, favorites: set<(UserId, TeaId)>, tea: TeaId): set<(ProductId, UserId)> {
    set p, u | p in AvailableProducts(products, tea) && u in Favoriters(favorites, tea) :: (p, u)
  }

  /** `published_tea_list` as written: each listed tea once (a map), with
      `Count('favorited_by')` taken over the product join. */
  function PublishedTeaListAsWritten(teas: map<TeaId, Tea>, products: map<ProductId, Product>,
                                     favorites: set<(UserId, TeaId)>, viewer: Option<UserId>, now: Time)
    : (r: map<TeaId, ListEntry>)
    ensures r.Keys == ListedTeas(teas, products, now)
    ensures forall t :: t in r ==> r[t].isFavorited == IsFavorited(favorites, viewer, t)
  {
    map t | t in ListedTeas(teas, products, now) ::
      ListEntry(|ListJoinRows(products, favorites, t)|, IsFavorited(favorites, viewer, t))
  }

  /** A tea with two available products and one favourite is listed with a
      count of 2. */
  lemma ListCountMultipliedByProducts()
    ensures var teas := map[1 := Tea(Some(0))];
            var products := map[10 := Product(1, 500, 3, true), 11 := Product(1, 900, 3, true)];
            var favorites := {(7, 1)};
            var r := PublishedTeaListAsWritten(teas, products, favorites, None, 1);
            && 1 in r && r[1].favoritesCount == 2 && FavoritesCount(favorites, 1) == 1
  {
    var products := map[10 := Product(1, 500, 3, true), 11 := Product(1, 900, 3, true)];
    var favorites := {(7, 1)};
    assert AvailableProducts(products, 1) == {10, 11};
    assert Favoriters(favorites, 1) == {7};
    assert ListJoinRows(products, favorites, 1) == {(10, 7), (11, 7)};
  }

  /** `published_tea_list` with the count the page means: the number of users
      who favourited the tea. */
  function PublishedTeaList(teas: map<TeaId, Tea>, products: map<ProductId, Product>,
                            favorites: set<(UserId, TeaId)>, viewer: Option<UserId>, now: Time)
    : (r: map<TeaId, ListEntry>)
    ensures r.Keys == ListedTeas(teas, products, now)
    ensures forall t :: t in r ==> r[t] == ListEntry(FavoritesCount(favorites, t), IsFavorited(favorites, viewer, t))
  {
    map t | t in ListedTeas(teas, products, now) ::
      ListEntry(FavoritesCount(favorites, t), IsFavorited(favorites, viewer, t))
  }

  /** The detail page of a published tea. */
  datatype Detail = Detail(favoritesCount: nat, isFavorited: bool, products: set<ProductId>,
                           userHasReviewed: bool, showReviewForm: bool)

  /** `published_tea_detail`: None is the 404 for an unknown or unpublished
      tea; a published tea without available products still has a page.
      `reviews` holds the (user, tea) pairs of `tea_reviews`. */
  function PublishedTeaDetail(teas: map<TeaId, Tea>, products: map<ProductId, Product>,
                              favorites: set<(UserId, TeaId)>, reviews: set<(UserId, TeaId)>,
                              viewer: Option<UserId>, tea: TeaId, now: Time)
    : (r: Option<Detail>)
    ensures r.Some? <==> tea in teas && IsPublished(teas[tea], now)
  {
    if tea !in teas || !IsPublished(teas[tea], now) then None
    else
      var reviewed := viewer.Some? && (viewer.value, tea) in reviews;
      Some(Detail(FavoritesCount(favorites, tea), IsFavorited(favorites, viewer, tea),
                  AvailableProducts(products, tea), reviewed, viewer.Some? && !reviewed))
  }

  /** The detail page shows only available products of the tea, offers the
      review form exactly to a signed-in visitor who has not reviewed the
      tea, and every tea on the list has a detail page with the same entry. */
  lemma DetailAgreesWithList(teas: map<TeaId, Tea>, products: map<ProductId, Product>,
                             favorites: set<(UserId, TeaId)>, reviews: set<(UserId, TeaId)>,
                             viewer: Option<UserId>, tea: TeaId, now: Time)
    ensures var d := PublishedTeaDetail(teas, products, favorites, reviews, viewer, tea, now);
      && (d.Some? ==> forall p :: p in d.value.products <==> p in products && products[p].tea == tea && products[p].isAvailable)
      && (d.Some? ==> (d.value.showReviewForm <==> viewer.Some? && (viewer.value, tea) !in reviews))
      && (d.Some? ==> (d.value.userHasReviewed <==> viewer.Some? && (viewer.value, tea) in reviews))
      && var l := PublishedTeaList(teas, products, favorites, viewer, now);
      && (tea in l ==> d.Some? && l[tea] == ListEntry(d.value.favoritesCount, d.value.isFavorited))
  {
  }

  /** The reply of a favourite toggle. */
  datatype FavoriteReply = BadRequest | TeaNotFound | Toggled(isFavorited: bool, favoritesCount: nat)

  /** `add_favorite_tea`: refuse anything but POST, 404 an unknown tea
      (published or not), then `get_or_create` the pair and count. */
  function AddFavoriteSpec(favorites: set<(UserId, TeaId)>, teas: map<TeaId, Tea>, user: UserId, tea: TeaId, isPost: bool)
    : (r: (set<(UserId, TeaId)>, FavoriteReply))
    ensures r.1.Toggled? <==> isPost && tea in teas
    ensures !r.1.Toggled? ==> r.0 == favorites
    ensures r.1.Toggled? ==> (user, tea) in r.0 && r.0 - {(user, tea)} == favorites - {(user, tea)} && r.1.isFavorited
  {
    if !isPost then (favorites, BadRequest)
    else if tea !in teas then (favorites, TeaNotFound)
    else
      var after := favorites + {(user, tea)};
      (after, Toggled(true, FavoritesCount(after, tea)))
  }

  /** `cancel_favorite_tea`: the same guards, then delete the pair and count. */
  function CancelFavoriteSpec(favorites: set<(UserId, TeaId)>, teas: map<TeaId, Tea>, user: UserId, tea: TeaId, isPost: bool)
    : (r: (set<(UserId, TeaId)>, FavoriteReply))
    ensures r.1.Toggled? <==> isPost && tea in teas
    ensures !r.1.Toggled? ==> r.0 == favorites
    ensures r.1.Toggled? ==> (user, tea) !in r.0 && r.0 + {(user, tea)} == favorites + {(user, tea)} && !r.1.isFavorited
  {
    if !isPost then (favorites, BadRequest)
    else if tea !in teas then (favorites, TeaNotFound)
    else
      var after := favorites - {(user, tea)};
      (after, Toggled(false, FavoritesCount(after, tea)))
  }

  /** Adding the user's pair raises the count by one unless it was there. */
  lemma FavoritersWith(favorites: set<(UserId, TeaId)>, user: UserId, tea: TeaId)
    ensures FavoritesCount(favorites + {(user, tea)}, tea)
         == FavoritesCount(favorites, tea) + (if (user, tea) in favorites then 0 else 1)
  {
    var before := Favoriters(favorites, tea);
    assert Favoriters(favorites + {(user, tea)}, tea) == before + {user};
    if (user, tea) !in favorites {
      assert user !in before;
    } else {
      assert favorites + {(user, tea)} == favorites;
    }
  }

  /** Removing the user's pair lowers the count by one if it was there. */
  lemma FavoritersWithout(favorites: set<(UserId, TeaId)>, user: UserId, tea: TeaId)
    ensures FavoritesCount(favorites - {(user, tea)}, tea)
         == FavoritesCount(favorites, tea) - (if (user, tea) in favorites then 1 else 0)
  {
    var before := Favoriters(favorites, tea);
    assert Favoriters(favorites - {(user, tea)}, tea) == before - {user};
  }

  /** Adding a favourite: afterwards the pair exists and no other pair
      changed; doing it again changes nothing and gives the same reply; the
      count is that of the tea's favouriting users. A request that is not a
      POST, or names no tea, changes nothing. */
  lemma AddFavoriteIdempotent(favorites: set<(UserId, TeaId)>, teas: map<TeaId, Tea>, user: UserId, tea: TeaId, isPost: bool)
    ensures var r := AddFavoriteSpec(favorites, teas, user, tea, isPost);
      && (r.1 == BadRequest <==> !isPost)
      && (r.1 == TeaNotFound <==> isPost && tea !in teas)
      && (r.1.Toggled? ==>
            && (user, tea) in r.0
            && r.1.favoritesCount == |Favoriters(r.0, tea)|
            && r.1.favoritesCount == FavoritesCount(favorites, tea) + (if (user, tea) in favorites then 0 else 1))
      && (!r.1.Toggled? ==> r.0 == favorites)
      && (forall f :: f != (user, tea) ==> (f in r.0 <==> f in favorites))
      && AddFavoriteSpec(r.0, teas, user, tea, isPost) == r
  {
    FavoritersWith(favorites, user, tea);
  }

  /** Cancelling a favourite: afterwards the pair is absent and no other pair
      changed; doing it again changes nothing and gives the same reply. */
  lemma CancelFavoriteIdempotent(favorites: set<(UserId, TeaId)>, teas: map<TeaId, Tea>, user: UserId, tea: TeaId, isPost: bool)
    ensures var r := CancelFavoriteSpec(favorites, teas, user, tea, isPost);
      && (r.1 == BadRequest <==> !isPost)
      && (r.1 == TeaNotFound <==> isPost && tea !in teas)
      && (r.1.Toggled? ==>
            && (user, tea) !in r.0
            && r.1.favoritesCount == FavoritesCount(favorites, tea) - (if (user, tea) in favorites then 1 else 0))
      && (!r.1.Toggled? ==> r.0 == favorites)
      && (forall f :: f != (user, tea) ==> (f in r.0 <==> f in favorites))
      && CancelFavoriteSpec(r.0, teas, user, tea, isPost) == r
  {
    FavoritersWithout(favorites, user, tea);
    var after := favorites - {(user, tea)};
    assert after - {(user, tea)} == after;
  }

  /** Adding then cancelling restores the table when the pair was absent. */
  lemma CancelUndoesAdd(favorites: set<(UserId, TeaId)>, teas: map<TeaId, Tea>, user: UserId, tea: TeaId)
    requires (user, tea) !in favorites
    ensures CancelFavoriteSpec(AddFavoriteSpec(favorites, teas, user, tea, true).0, teas, user, tea, true).0 == favorites
  {
  }

  /** The catalogue: tea rows and the `favorite_teas` pairs, which the
      favourite views change in place. */
  class Catalog {
    var teas: map<TeaId, Tea>
    var favorites: set<(UserId, TeaId)>

    constructor (teas: map<TeaId, Tea>)
      ensures this.teas == teas && favorites == {}
    {
      this.teas := teas;
      favorites := {};
    }

    /** `add_favorite_tea` */
    method AddFavoriteTea(user: UserId, tea: TeaId, isPost: bool) returns (reply: FavoriteReply)
      modifies this`favorites
      ensures (favorites, reply) == AddFavoriteSpec(old(favorites), teas, user, tea, isPost)
    {
      if !isPost {
        return BadRequest;
      }
      if tea !in teas {
        return TeaNotFound;
      }
      if (user, tea) !in favorites {
        favorites := favorites + {(user, tea)};
      } else {
        assert favorites + {(user, tea)} == favorites;
      }
      reply := Toggled(true, FavoritesCount(favorites, tea));
    }

    /** `cancel_favorite_tea` */
    method CancelFavoriteTea(user: UserId, tea: TeaId, isPost: bool) returns (reply: FavoriteReply)
      modifies this`favorites
      ensures (favorites, reply) == CancelFavoriteSpec(old(favorites), teas, user, tea, isPost)
    {
      if !isPost {
        return BadRequest;
      }
      if tea !in teas {
        return TeaNotFound;
      }
      favorites := favorites - {(user, tea)};
      reply := Toggled(false, FavoritesCount(favorites, tea));
    }
  }

  /** `c * n` for a one-character string; a negative count gives "". */
  function Repeat(c: char, n: int): (s: string)
    ensures |s| == if n < 0 then 0 else n
    ensures forall i :: 0 <= i < |s| ==> s[i] == c
  {
    if n <= 0 then "" else Repeat(c, n - 1) + [c]
  }

  /** `TeaReview.get_star_display`: `rating` filled stars then `5 - rating`
      empty ones. */
  function StarDisplay(rating: nat): (s: string)
    ensures |s| == if rating < 5 then 5 else rating
    ensures forall i :: 0 <= i < |s| ==> s[i] == if i < rating then '★' else '☆'
  {
    Repeat('★', rating) + Repeat('☆', 5 - rating)
  }

  /** The number of filled stars in a display. */
  function FilledStars(s: string): nat {
    if |s| == 0 then 0 else FilledStars(s[..|s| - 1]) + (if s[|s| - 1] == '★' then 1 else 0)
  }

  lemma {:induction false} FilledStarsOfRepeat(c: char, n: nat)
    ensures FilledStars(Repeat(c, n)) == if c == '★' then n else 0
  {
    if n > 0 {
      FilledStarsOfRepeat(c, n - 1);
      assert Repeat(c, n)[..n - 1] == Repeat(c, n - 1);
    }
  }

  lemma {:induction false} FilledStarsConcat(a: string, b: string)
    ensures FilledStars(a + b) == FilledStars(a) + FilledStars(b)
  {
    if |b| > 0 {
      FilledStarsConcat(a, b[..|b| - 1]);
      assert (a + b)[..|a + b| - 1] == a + b[..|b| - 1];
    } else {
      assert a + b == a;
    }
  }

  /** Each of the five ratings of `RATING_CHOICES` shows five symbols, of
      which exactly `rating` are filled, and the display gives the rating
      back. */
  lemma StarDisplayCountsRating(rating: nat)
    requires 1 <= rating <= 5
    ensures |StarDisplay(rating)| == 5
    ensures FilledStars(StarDisplay(rating)) == rating
  {
    FilledStarsConcat(Repeat('★', rating), Repeat('☆', 5 - rating));
    FilledStarsOfRepeat('★', rating);
    FilledStarsOfRepeat('☆', 5 - rating);
  }
}
