/** The spatial simulation of src/game/dish.py: grid points, food, organisms that move
    one cell at a time, and the dish that holds them. */
module PetriDish {

  datatype Option<T> = None | Some(value: T)

  /** A grid cell, row `y` first. */
  datatype Point = Point(y: int, x: int)

  /** `p + other`. */
  function Add(p: Point, other: Point): Point
  {
    Point(other.y + p.y, other.x + p.x)
  }

  /** `p - other`. */
  function Sub(p: Point, other: Point): Point
  {
    Point(p.y - other.y, p.x - other.x)
  }

  /** Subtraction undoes addition, both ways round, and addition commutes. */
  lemma SubInvertsAdd(p: Point, q: Point)
    ensures Sub(Add(p, q), q) == p
    ensures Add(Sub(p, q), q) == p
    ensures Add(p, q) == Add(q, p)
  {
  }

  /** Distance in grid steps. */
  function Manhattan(p: Point, q: Point): nat
  {
    (if p.y >= q.y then p.y - q.y else q.y - p.y) + (if p.x >= q.x then p.x - q.x else q.x - p.x)
  }

  /** An immutable food item: row, column and caloric value. */
  datatype Food = Food(y: int, x: int, calories: real)

  /** `sys.maxsize` on a 64-bit platform, the upper end of the random ids. */
  const MAXSIZE: int := 0x7FFF_FFFF_FFFF_FFFF

  /** `p(probability_out_of_100)` for the uniform sample `sample` of `random()`. */
  function Chance(percent: real, sample: real): bool
  {
    sample * 100.0 < percent
  }

  /** For a sample in [0, 1), `p(10)` holds exactly when the sample is below 0.1; a
      percentage of 100 or more always holds and one of 0 or less never does. */
  lemma ChanceAsThreshold(sample: real)
    requires 0.0 <= sample < 1.0
    ensures Chance(10.0, sample) <==> sample < 0.1
    ensures Chance(100.0, sample)
    ensures !Chance(0.0, sample)
  {
  }

  /** The keypad directions 2, 4, 6 and 8 (down, left, right, up). */
  predicate Cardinal(direction: int)
  {
    direction == 2 || direction == 4 || direction == 6 || direction == 8
  }

  /** The offset a cardinal keypad direction moves by; y grows downwards. */
  function Step(direction: int): Point
    requires Cardinal(direction)
  {
    if direction == 2 then Point(1, 0)
    else if direction == 4 then Point(0, -1)
    else if direction == 6 then Point(0, 1)
    else Point(-1, 0)
  }

  /** Every cardinal step is one cell long, and 2/8 and 4/6 cancel out. */
  lemma StepsAreUnit(direction: int)
    requires Cardinal(direction)
    ensures Manhattan(Point(0, 0), Step(direction)) == 1
    ensures Add(Step(2), Step(8)) == Point(0, 0) && Add(Step(4), Step(6)) == Point(0, 0)
  {
  }

  /** The four choices of `free_wander_think`. */
  const WANDER_DIRECTIONS: seq<int> := [2, 4, 6, 8]

  class Organism {
    var idx: Option<int>
    var pos: Point
    var bounds: Point

    /** A new organism has no id until a dish assigns one. */
    constructor (pos: Point, bounds: Point)
      ensures idx == None && this.pos == pos && this.bounds == bounds
    {
      idx := None;
      this.pos := pos;
      this.bounds := bounds;
    }

    /** Tries to move by keypad direction. Diagonals are refused, 5 is accepted without
        moving, and a cardinal step moves one cell and returns None. */
    method Move(direction: int) returns (r: Option<bool>)
      requires 0 < direction < 10
      modifies this
      ensures direction in {1, 3, 7, 9} ==> r == Some(false) && pos == old(pos)
      ensures direction == 5 ==> r == Some(true) && pos == old(pos)
      ensures Cardinal(direction) ==> r == None && pos == Add(old(pos), Step(direction))
      ensures idx == old(idx) && bounds == old(bounds)
    {
      if direction in [1, 3, 7, 9] {
        return Some(false);
      }
      if direction == 5 {
        return Some(true);
      }
      if direction == 2 {
        pos := pos.(y := pos.y + 1);
      } else if direction == 4 {
        pos := pos.(x := pos.x - 1);
      } else if direction == 6 {
        pos := pos.(x := pos.x + 1);
      } else if direction == 8 {
        pos := pos.(y := pos.y - 1);
      }
      r := None;
    }

    /** One autonomous step: with `sample` standing for `random()` and `pick` for the
        index `choice` draws, moves one cardinal step when `p(10)` holds. */
    method FreeWanderThink(sample: real, pick: int)
      requires 0.0 <= sample < 1.0
      requires 0 <= pick < |WANDER_DIRECTIONS|
      modifies this
      ensures Chance(10.0, sample) ==> pos == Add(old(pos), Step(WANDER_DIRECTIONS[pick]))
      ensures !Chance(10.0, sample) ==> pos == old(pos)
      ensures Manhattan(old(pos), pos) <= 1
      ensures idx == old(idx) && bounds == old(bounds)
    {
      if Chance(10.0, sample) {
        var d := WANDER_DIRECTIONS[pick];
        var _ := Move(d);
      }
    }
  }

  /** The first of `draws` that is not in `keys`: the id the retry loop settles on. */
  function FirstFresh(draws: seq<int>, keys: set<int>): (r: int)
    requires exists j :: 0 <= j < |draws| && draws[j] !in keys
    ensures r !in keys
    ensures exists k :: 0 <= k < |draws| && draws[k] == r && forall j :: 0 <= j < k ==> draws[j] in keys
  {
    if draws[0] !in keys then draws[0]
    else
      assert exists j :: 0 <= j < |draws[1..]| && draws[1..][j] !in keys by {
        var j :| 0 <= j < |draws| && draws[j] !in keys;
        assert draws[1..][j - 1] == draws[j];
      }
      var r := FirstFresh(draws[1..], keys);
      var k :| 0 <= k < |draws[1..]| && draws[1..][k] == r && forall j :: 0 <= j < k ==> draws[1..][j] in keys;
      assert forall j :: 0 <= j < k + 1 ==> draws[j] in keys by {
        forall j | 0 <= j < k + 1
          ensures draws[j] in keys
        {
          if j > 0 {
            assert draws[j] == draws[1..][j - 1];
          }
        }
      }
      r
  }

  /** A draw that is fresh and follows only stale draws is the first fresh one. */
  lemma {:induction false} FirstFreshAt(draws: seq<int>, keys: set<int>, k: int)
    requires 0 <= k < |draws| && draws[k] !in keys
    requires forall j :: 0 <= j < k ==> draws[j] in keys
    ensures FirstFresh(draws, keys) == draws[k]
  {
    if k > 0 {
      assert draws[1..][k - 1] == draws[k];
      FirstFreshAt(draws[1..], keys, k - 1);
    }
  }

  class Dish {
    var organisms: map<int, Organism>
    var food: seq<Food>
    var bounds: (int, int)

    /** Every stored organism carries the id it is stored under. */
    ghost predicate Valid()
      reads this, organisms.Values
    {
      forall k :: k in organisms ==> organisms[k].idx == Some(k)
    }

    /** An empty dish of the default size holding the given food. */
    constructor (food: seq<Food>)
      ensures Valid()
      ensures organisms == map[] && this.food == food && bounds == (100, 600)
    {
      organisms := map[];
      this.food := food;
      bounds := (100, 600);
    }

    /** Assigns `o` a fresh id and stores it. `draws` are the successive results of
        `randint(0, maxsize)`; the id is the first draw that is not already a key. */
    method AddOrganism(o: Organism, draws: seq<int>) returns (r: Organism)
      requires forall j :: 0 <= j < |draws| ==> 0 <= draws[j] <= MAXSIZE
      requires exists j :: 0 <= j < |draws| && draws[j] !in organisms
      modifies this, o
      ensures r == o && o.idx.Some?
      ensures o.idx.value !in old(organisms) && 0 <= o.idx.value <= MAXSIZE
      ensures o.idx.value == FirstFresh(draws, old(organisms).Keys)
      ensures organisms == old(organisms)[o.idx.value := o]
      ensures |organisms| == |old(organisms)| + 1
      ensures food == old(food) && bounds == old(bounds)
      ensures o.pos == old(o.pos) && o.bounds == old(o.bounds)
      ensures old(Valid()) && o !in old(organisms.Values) ==> Valid()
    {
      var i := 0;
      var newIdx := draws[0];
      while newIdx in organisms
        invariant 0 <= i < |draws| && newIdx == draws[i]
        invariant forall j :: 0 <= j < i ==> draws[j] in organisms
        invariant exists k :: i <= k < |draws| && draws[k] !in organisms
        decreases |draws| - i
      {
        i := i + 1;
        newIdx := draws[i];
      }
      FirstFreshAt(draws, organisms.Keys, i);
      o.idx := Some(newIdx);
      organisms := organisms[newIdx := o];
      r := o;
    }

    /** Appends one food item. */
    method AddFood(y: int, x: int, calories: real)
      modifies this
      ensures food == old(food) + [Food(y, x, calories)]
      ensures organisms == old(organisms) && bounds == old(bounds)
    {
      food := food + [Food(y, x, calories)];
    }
  }

  /** Two organisms added one after the other get different ids, even when the id
      generator repeats itself. */
  method AddTwo(dish: Dish, a: Organism, b: Organism, first: seq<int>, second: seq<int>)
    returns (ida: int, idb: int)
    requires a != b
    requires forall j :: 0 <= j < |first| ==> 0 <= first[j] <= MAXSIZE
    requires forall j :: 0 <= j < |second| ==> 0 <= second[j] <= MAXSIZE
    requires exists j :: 0 <= j < |first| && first[j] !in dish.organisms
    requires exists j :: 0 <= j < |second| && second[j] !in dish.organisms
                         && second[j] != FirstFresh(first, dish.organisms.Keys)
    modifies dish, a, b
    ensures a.idx == Some(ida) && b.idx == Some(idb) && ida != idb
    ensures ida in dish.organisms && idb in dish.organisms
  {
    var _ := dish.AddOrganism(a, first);
    ida := a.idx.value;
    ghost var j :| 0 <= j < |second| && second[j] !in old(dish.organisms)
                   && second[j] != FirstFresh(first, old(dish.organisms).Keys);
    assert second[j] !in dish.organisms;
    var _ := dish.AddOrganism(b, second);
    idb := b.idx.value;
  }
}
