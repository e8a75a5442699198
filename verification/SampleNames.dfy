// Names and hashes for the concrete inputs that show a property to fail.

module SampleNames {
  import opened Json
  import opened Records

  // One-letter names: t, s, w, r.
  const T: Text := [116]
  const S: Text := [115]
  const W: Text := [119]
  const R: Text := [114]

  // o/n
  const REPOSITORY: Text := [111, 47, 110]

  function ZeroSha(): Text { seq(40, i => 48) }

  function OneSha(): Text { seq(40, i => 49) }

  function ZeroDigest(): Text { seq(64, i => 48) }

  function OneDigest(): Text { seq(64, i => 49) }

  lemma NamesAccepted()
    ensures Identifier(T) && Identifier(S) && Identifier(W) && Identifier(R)
    ensures Sha(ZeroSha(), 40) && Sha(OneSha(), 40) && ZeroSha() != OneSha()
    ensures Sha(ZeroDigest(), 64) && Sha(OneDigest(), 64) && ZeroDigest() != OneDigest()
  {
    assert ZeroSha()[0] == 48 && OneSha()[0] == 49;
    assert ZeroDigest()[0] == 48 && OneDigest()[0] == 49;
  }

  lemma RepositoryNamed()
    ensures RepositoryName(REPOSITORY)
  {
    assert REPOSITORY[1] == '/' as int && REPOSITORY[..1] == [111] && REPOSITORY[2..] == [110];
    assert RepositoryPart(REPOSITORY[..1]) && RepositoryPart(REPOSITORY[1 + 1..]);
  }
}
