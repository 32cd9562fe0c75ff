/** The layout renderer: every block of a page layout, in order, handed to the component its
    `blockType` names. */
module LayoutRenderer {
  import opened Wrappers
  import opened PayloadTypes

  /** The five block components. */
  datatype Component = HeroComponent | ContentComponent | MediaComponent | CtaComponent | ArchiveComponent

  /** The `@switch (block.blockType)`: one case per known type and no `@default`. */
  function ComponentFor(blockType: string): (c: Option<Component>)
    ensures c.None? <==> blockType !in {"hero", "content", "mediaBlock", "cta", "archive"}
    ensures c == Some(HeroComponent) <==> blockType == "hero"
    ensures c == Some(ContentComponent) <==> blockType == "content"
    ensures c == Some(MediaComponent) <==> blockType == "mediaBlock"
    ensures c == Some(CtaComponent) <==> blockType == "cta"
    ensures c == Some(ArchiveComponent) <==> blockType == "archive"
  {
    if blockType == "hero" then Some(HeroComponent)
    else if blockType == "content" then Some(ContentComponent)
    else if blockType == "mediaBlock" then Some(MediaComponent)
    else if blockType == "cta" then Some(CtaComponent)
    else if blockType == "archive" then Some(ArchiveComponent)
    else None
  }

  /** A rendered block: the component and the block it receives. */
  datatype Rendered = Rendered(component: Component, block: Block)

  /** The `@for` over the blocks. */
  function RenderBlocks(blocks: seq<Block>): (r: seq<Rendered>)
    ensures |r| <= |blocks|
    ensures forall i :: 0 <= i < |r| ==> ComponentFor(BlockType(r[i].block)) == Some(r[i].component)
    decreases |blocks|
  {
    if blocks == [] then []
    else
      var rest := RenderBlocks(blocks[1..]);
      match ComponentFor(BlockType(blocks[0]))
      case Some(c) => [Rendered(c, blocks[0])] + rest
      case None => rest
  }

  /** The template: nothing for an absent or empty layout, else the rendered blocks. */
  function RenderLayout(layout: Option<seq<Block>>): (r: seq<Rendered>)
    ensures layout.None? || layout.value == [] ==> r == []
    ensures layout.Some? ==> r == RenderBlocks(layout.value)
  {
    if layout.Some? && |layout.value| > 0 then RenderBlocks(layout.value) else []
  }

  /** Blocks render in layout order: the output of a concatenation is the concatenation. */
  lemma {:induction false} RenderBlocksAppend(a: seq<Block>, b: seq<Block>)
    ensures RenderBlocks(a + b) == RenderBlocks(a) + RenderBlocks(b)
    decreases |a|
  {
    if a == [] {
      assert a + b == b;
    } else {
      assert (a + b)[0] == a[0] && (a + b)[1..] == a[1..] + b;
      RenderBlocksAppend(a[1..], b);
    }
  }

  /** One block alone: its component when its type is known, nothing otherwise. */
  lemma RenderOne(b: Block)
    ensures ComponentFor(BlockType(b)).Some? ==> RenderBlocks([b]) == [Rendered(ComponentFor(BlockType(b)).value, b)]
    ensures ComponentFor(BlockType(b)).None? ==> RenderBlocks([b]) == []
  {
    assert [b][1..] == [];
  }

  /** A block of unknown type is skipped without disturbing its neighbours. */
  lemma UnknownBlockSkipped(a: seq<Block>, b: Block, c: seq<Block>)
    requires ComponentFor(BlockType(b)).None?
    ensures RenderBlocks(a + [b] + c) == RenderBlocks(a) + RenderBlocks(c)
  {
    RenderBlocksAppend(a + [b], c);
    RenderBlocksAppend(a, [b]);
    RenderOne(b);
  }

  /** Each of the five known blocks types reaches its own component: the block datatypes map
      one to one onto the components. */
  lemma KnownBlocksRouted(b: Block)
    ensures b.HeroB? ==> RenderBlocks([b]) == [Rendered(HeroComponent, b)]
    ensures b.ContentB? ==> RenderBlocks([b]) == [Rendered(ContentComponent, b)]
    ensures b.MediaB? ==> RenderBlocks([b]) == [Rendered(MediaComponent, b)]
    ensures b.CtaB? ==> RenderBlocks([b]) == [Rendered(CtaComponent, b)]
    ensures b.ArchiveB? ==> RenderBlocks([b]) == [Rendered(ArchiveComponent, b)]
  {
    RenderOne(b);
  }

  /** Every known block is rendered exactly once: the output's blocks are the known blocks of the
      layout, in order. */
  lemma {:induction false} RenderedBlocksAreKnownBlocks(blocks: seq<Block>)
    ensures Blocks(RenderBlocks(blocks)) == KnownBlocks(blocks)
    decreases |blocks|
  {
    if blocks != [] {
      RenderedBlocksAreKnownBlocks(blocks[1..]);
      var rest := RenderBlocks(blocks[1..]);
      if ComponentFor(BlockType(blocks[0])).Some? {
        var r := RenderBlocks(blocks);
        assert r == [Rendered(ComponentFor(BlockType(blocks[0])).value, blocks[0])] + rest;
        assert r[1..] == rest;
      }
    }
  }

  function Blocks(rs: seq<Rendered>): seq<Block>
    decreases |rs|
  {
    if rs == [] then [] else [rs[0].block] + Blocks(rs[1..])
  }

  /** Reference definition: the blocks whose type one of the five cases matches. */
  function KnownBlocks(blocks: seq<Block>): seq<Block>
    decreases |blocks|
  {
    if blocks == [] then []
    else (if BlockType(blocks[0]) in {"hero", "content", "mediaBlock", "cta", "archive"} then [blocks[0]] else [])
         + KnownBlocks(blocks[1..])
  }
}
