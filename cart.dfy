/** The shopping cart (script.js lines 16, 154-160 and 166-182): an ordered
    list of lines that grows at the end when a plant is added, loses one
    line by position when it is removed, and whose total is recomputed from
    scratch after every change. */
module CartState {

  /** One line of the cart: `{name, price}`. */
  datatype CartLine = CartLine(name: string, price: int)

  /** The sum of the prices of `lines`. */
  function Sum(lines: seq<CartLine>): int
  {
    if lines == [] then 0 else lines[0].price + Sum(lines[1..])
  }

  /** Appending a line adds its price to the sum. */
  lemma {:induction false} SumAppend(lines: seq<CartLine>, line: CartLine)
    ensures Sum(lines + [line]) == Sum(lines) + line.price
  {
    if lines != [] {
      assert (lines + [line])[1..] == lines[1..] + [line];
      SumAppend(lines[1..], line);
    } else {
      assert lines + [line] == [line];
    }
  }

  /** The sum of a concatenation is the sum of the parts. */
  lemma {:induction false} SumConcat(a: seq<CartLine>, b: seq<CartLine>)
    ensures Sum(a + b) == Sum(a) + Sum(b)
  {
    if a != [] {
      assert (a + b)[1..] == a[1..] + b;
      SumConcat(a[1..], b);
    } else {
      assert a + b == b;
    }
  }

  /** `s.splice(i, 1)` for a non-negative index: the element at `i` is
      removed and the others keep their order; an index past the end
      changes nothing. */
  function Splice<T>(s: seq<T>, i: nat): (r: seq<T>)
    ensures i < |s| ==> |r| == |s| - 1
    ensures i < |s| ==> forall j | 0 <= j < i :: r[j] == s[j]
    ensures i < |s| ==> forall j | i <= j < |r| :: r[j] == s[j + 1]
    ensures i >= |s| ==> r == s
    ensures multiset(r) == if i < |s| then multiset(s) - multiset{s[i]} else multiset(s)
  {
    if i < |s| then
      assert s == s[..i] + [s[i]] + s[i + 1..];
      s[..i] + s[i + 1..]
    else s
  }

  /** Removing the line at `i` takes its price off the sum. */
  lemma {:induction false} SumSplice(lines: seq<CartLine>, i: nat)
    ensures Sum(Splice(lines, i)) == Sum(lines) - (if i < |lines| then lines[i].price else 0)
  {
    if i < |lines| {
      var pre, post := lines[..i], lines[i + 1..];
      var tail := [lines[i]] + post;
      assert lines == pre + tail;
      assert tail[1..] == post;
      assert Sum(tail) == lines[i].price + Sum(post);
      SumConcat(pre, tail);
      SumConcat(pre, post);
      assert Splice(lines, i) == pre + post;
    }
  }

  /** The page's cart: the module-level `cart` array. */
  class Cart {
    var lines: seq<CartLine>

    /** `let cart = []`. */
    constructor ()
      ensures lines == []
    {
      lines := [];
    }

    /** renderCart's accumulation: `total += it.price` for every line in
        order; the total shown is the sum of all prices. */
    method RenderCart() returns (total: int)
      ensures total == Sum(lines)
    {
      total := 0;
      var i := 0;
      while i < |lines|
        invariant 0 <= i <= |lines|
        invariant total == Sum(lines[..i])
      {
        assert lines[..i + 1] == lines[..i] + [lines[i]];
        SumAppend(lines[..i], lines[i]);
        total := total + lines[i].price;
        i := i + 1;
      }
      assert lines[..i] == lines;
    }

    /** The "Add to Cart" click: `cart.push({name, price})`, then
        renderCart. Exactly one line is appended and the new total is the
        old one plus the added price. */
    method AddToCart(name: string, price: int) returns (total: int)
      modifies this
      ensures lines == old(lines) + [CartLine(name, price)]
      ensures total == Sum(lines)
      ensures total == Sum(old(lines)) + price
    {
      lines := lines + [CartLine(name, price)];
      SumAppend(old(lines), CartLine(name, price));
      total := RenderCart();
    }

    /** removeFromCart(i): `cart.splice(i, 1)`, then renderCart. The line at
        `i` goes and its price leaves the total; an index past the end
        changes nothing. */
    method RemoveFromCart(i: nat) returns (total: int)
      modifies this
      ensures lines == Splice(old(lines), i)
      ensures total == Sum(lines)
      ensures total == Sum(old(lines)) - (if i < |old(lines)| then old(lines)[i].price else 0)
    {
      SumSplice(lines, i);
      lines := Splice(lines, i);
      total := RenderCart();
    }
  }

  /** Adding Rose at 50 and Tulip at 70 and then removing the line at index
      0 leaves a total of 70; removing at an index past the end then leaves
      the cart as it was. */
  method ExampleSession() returns (total: int, remaining: seq<CartLine>)
    ensures total == 70
    ensures remaining == [CartLine("Tulip", 70)]
  {
    var cart := new Cart();
    var t := cart.AddToCart("Rose", 50);
    t := cart.AddToCart("Tulip", 70);
    t := cart.RemoveFromCart(0);
    total := cart.RemoveFromCart(5);
    remaining := cart.lines;
  }
}
